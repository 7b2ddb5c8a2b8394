/** The two errors a message that belongs to a set throws when it is sent or
    updated on its own (lib/MessageSetMessage/errors.js, whose text is not
    part of this model: only the two kinds are). */
module MessageSetMessageErrors {

  datatype SetMessageError =
    | CannotSendIndividualMessage
    | CannotUpdateIndividualMessage
}
