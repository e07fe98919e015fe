/**
 * The arguments handed to the encryption routine (index.js lines 137-156):
 * the permissions record and the two passwords. The routine itself, and the
 * encoding of the permissions into the document, belong to a library and are
 * not modelled.
 */
module Encryption {
  import opened JsValues

  /**
   * `printing` is whatever truthy value the caller gave, or the string
   * 'highResolution'; each boolean says whether the action is permitted.
   */
  datatype Permissions = Permissions(
    printing: JsValue,
    modifying: bool,
    copying: bool,
    annotating: bool,
    fillingForms: bool,
    contentAccessibility: bool,
    documentAssembly: bool)

  datatype EncryptArgs = EncryptArgs(
    userPassword: JsValue,
    ownerPassword: JsValue,
    permissions: Permissions)

  const HighResolution := Str("highResolution")

  /** Every permission granted, printing in high resolution. */
  const AllAllowed := Permissions(HighResolution, true, true, true, true, true, true)

  /** `enc.permissions?.key`: undefined when the permissions object is missing. */
  function Given(enc: JsValue, key: string): JsValue
    requires Truthy(enc)
  {
    OptionalProp(Prop(enc, "permissions"), key)
  }

  /** True unless the caller set the permission to exactly `false`. */
  predicate Granted(enc: JsValue, key: string)
    requires Truthy(enc)
  {
    NotFalse(Given(enc, key))
  }

  /** The `permissions` literal. */
  function PermissionsOf(enc: JsValue): (r: Permissions)
    requires Truthy(enc)
    ensures !IsFalsyValue(Given(enc, "printing")) ==> r.printing == Given(enc, "printing")
    ensures IsFalsyValue(Given(enc, "printing")) ==> r.printing == HighResolution
    ensures !r.modifying <==> Given(enc, "modifying") == Bool(false)
    ensures !r.copying <==> Given(enc, "copying") == Bool(false)
    ensures !r.annotating <==> Given(enc, "annotating") == Bool(false)
    ensures !r.fillingForms <==> Given(enc, "fillingForms") == Bool(false)
    ensures !r.contentAccessibility <==> Given(enc, "contentAccessibility") == Bool(false)
    ensures !r.documentAssembly <==> Given(enc, "documentAssembly") == Bool(false)
    ensures Nullish(Prop(enc, "permissions")) ==> r == AllAllowed
  {
    Permissions(
      printing := Or(Given(enc, "printing"), HighResolution),
      modifying := Granted(enc, "modifying"),
      copying := Granted(enc, "copying"),
      annotating := Granted(enc, "annotating"),
      fillingForms := Granted(enc, "fillingForms"),
      contentAccessibility := Granted(enc, "contentAccessibility"),
      documentAssembly := Granted(enc, "documentAssembly"))
  }

  /**
   * The three arguments after the document bytes. The user password is the
   * caller's when truthy, else ''. The owner password is the caller's when
   * truthy, else the user password when that is truthy, else ''; so without
   * an owner password of its own the document gets the user password twice.
   */
  function EncryptArgsOf(enc: JsValue): (r: EncryptArgs)
    requires Truthy(enc)
    ensures r.permissions == PermissionsOf(enc)
    ensures var user := Prop(enc, "userPassword");
      (!IsFalsyValue(user) ==> r.userPassword == user) && (IsFalsyValue(user) ==> r.userPassword == Str(""))
    ensures var owner := Prop(enc, "ownerPassword");
      (!IsFalsyValue(owner) ==> r.ownerPassword == owner) && (IsFalsyValue(owner) ==> r.ownerPassword == r.userPassword)
    ensures Truthy(r.ownerPassword) <==> Truthy(r.userPassword) || Truthy(Prop(enc, "ownerPassword"))
  {
    EncryptArgs(
      userPassword := Or(Prop(enc, "userPassword"), Str("")),
      ownerPassword := Or(Or(Prop(enc, "ownerPassword"), Prop(enc, "userPassword")), Str("")),
      permissions := PermissionsOf(enc))
  }
}
