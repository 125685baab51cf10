/** The exceptions that leave the configuration pipeline, as values. */
module CmpExceptions {

  datatype CmpError =
    /** `CnvrCmpException(message)`: an invalid or incomplete publisher configuration. */
    | CnvrCmpException(message: string)
    /** Kotlin's `toInt()` rejected `text` (java.lang.NumberFormatException). */
    | NumberFormatException(text: string)
}
