/** The output dialects every renderer switches over. */
module DocTypes {

  /** `DocType`: the four dialects, and `Other` for any other value the enum
      can hold, which reaches the `default` branch of each switch. */
  datatype DocType = Xml | Md | Yml | Html | Other
}
