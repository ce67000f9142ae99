/** The palette entries that the status mappings of the list and detail screens use. */
module Colors {

  datatype Colour =
    | Success
    | Warning
    | Danger
    | Gray
    | GradientActiveStart
    | GradientTreatmentStart
    | GradientDeceasedStart
    | GradientDefault
    | GradientEnd

}
