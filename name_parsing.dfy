/** The name parser, a collaborator whose code is not part of this model:
    it is given to the handlers as two functions. */
module NameParsing {

  /** The parser's verdict on a raw name, with the message shown to the user. */
  datatype ValidationResult = ValidationResult(valid: bool, message: string)

  /** What the parser derives from a raw name: the Java package, the display
      name, and a third component whose meaning the handlers never use.
      This one datatype stands for two Java classes: `NameParser.NameComponents`,
      which the project handler reads through `getName` and `getJavaPackage`,
      and `content.NameComponents`, which the application handler receives and
      whose three-argument constructor fixes the order of the fields. */
  datatype NameComponents = NameComponents(javaPackage: string, name: string, kind: string)

  /** `NameParser.validate` and `NameParser.parse`. */
  datatype NameParser = NameParser(validate: string -> ValidationResult, parse: string -> NameComponents)
}
