/**
 * The VSEOCLASS attribute record written into a class's `.clas.xml` file,
 * and its translation from the attributes fetched for the class.
 */
module ClassAttributes {

  /** The descriptive attributes the server returns for a class. */
  datatype ClassInfo = ClassInfo(
    name: string,
    active: string,
    masterLanguage: string,
    description: string,
    modeled: bool,
    fixPointArithmetic: bool)

  /** The VSEOCLASS record, one single-character flag per switch. */
  datatype Vseoclass = Vseoclass(
    clsname: string,
    version: string,
    langu: string,
    descript: string,
    state: string,
    clsccincl: string,
    fixpt: string,
    unicode: string)

  /**
   * build_class_abap_attributes. `isoToSap` stands for the language-code
   * lookup iso_code_to_sap_code, which is not part of this model.
   */
  function BuildClassAbapAttributes(clas: ClassInfo, isoToSap: string -> string): (v: Vseoclass)
    ensures v.clsname == clas.name && v.descript == clas.description
    ensures v.langu == isoToSap(clas.masterLanguage)
    ensures v.version in {"0", "1"} && (v.version == "1" <==> clas.active == "active")
    ensures v.state in {"0", "1"} && (v.state == "0" <==> clas.modeled)
    ensures v.fixpt in {"X", " "} && (v.fixpt == "X" <==> clas.fixPointArithmetic)
    ensures v.clsccincl == "X" && v.unicode == "X"
  {
    Vseoclass(
      clsname := clas.name,
      version := if clas.active == "active" then "1" else "0",
      langu := isoToSap(clas.masterLanguage),
      descript := clas.description,
      state := if clas.modeled then "0" else "1",
      clsccincl := "X",
      fixpt := if clas.fixPointArithmetic then "X" else " ",
      unicode := "X")
  }

  /**
   * The record depends on exactly the name, the description, whether the
   * class is active, the modeled and fixed-point flags, and the looked-up
   * language: two classes give the same record if and only if they agree on
   * these.
   */
  lemma AttributesDetermineClass(a: ClassInfo, b: ClassInfo, isoToSap: string -> string)
    ensures BuildClassAbapAttributes(a, isoToSap) == BuildClassAbapAttributes(b, isoToSap)
        <==> (&& a.name == b.name
              && a.description == b.description
              && (a.active == "active") == (b.active == "active")
              && a.modeled == b.modeled
              && a.fixPointArithmetic == b.fixPointArithmetic
              && isoToSap(a.masterLanguage) == isoToSap(b.masterLanguage))
  {
  }
}
