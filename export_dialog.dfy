/**
 * The string and list logic of the openEPD export dialog: the id of an EPD
 * that was already uploaded (taken from its URN), the label of the primary
 * button, the EC3 product-class path stored in the document, and the mass
 * unit shown next to the mass field.
 */
module ExportDialog {
  import opened Optional

  /** The URN prefix of EPDs that already exist on an openEPD server. */
  const OpenEpdPrefix: string := "openEPD:"

  /** The classification key of EC3 product classes. */
  const Ec3Key: string := "io.cqd.ec3"

  /** A `Pair<String, String>` of the document's product classes; both parts may be null. */
  datatype ProductClass = ProductClass(first: Option<string>, second: Option<string>)

  /** A quantity with a unit name that may be null. */
  datatype EpdQuantity = EpdQuantity(amount: real, unit: Option<string>)

  // ---------------------------------------------------------------------
  // The existing id and the primary button
  // ---------------------------------------------------------------------

  /** The id of an already uploaded EPD: its URN without the `openEPD:` prefix. */
  function ExistingId(urn: Option<string>): (id: Option<string>)
    ensures id.Some? <==> urn.Some? && OpenEpdPrefix <= urn.value
    ensures id.Some? ==> urn.value == OpenEpdPrefix + id.value
  {
    if urn.Some? && OpenEpdPrefix <= urn.value then Some(urn.value[8..]) else None
  }

  /** Prefixing an id makes a URN from which the same id is read back. */
  lemma ExistingIdRoundTrip(id: string)
    ensures ExistingId(Some(OpenEpdPrefix + id)) == Some(id)
  {
  }

  /** The label of the primary button: "Upload" for a new EPD, "Update" for an existing one. */
  function PrimaryButtonLabel(existingId: Option<string>): (text: string)
    ensures text == "Upload" || text == "Update"
    ensures text == "Update" <==> existingId.Some?
  {
    if existingId.None? then "Upload" else "Update"
  }

  /** The dialog offers "Update" exactly for a URN with the openEPD prefix. */
  lemma PrimaryButtonLabelOfUrn(urn: Option<string>)
    ensures PrimaryButtonLabel(ExistingId(urn)) == "Update" <==> urn.Some? && OpenEpdPrefix <= urn.value
    ensures PrimaryButtonLabel(ExistingId(urn)) == "Upload" <==> !(urn.Some? && OpenEpdPrefix <= urn.value)
  {
  }

  // ---------------------------------------------------------------------
  // The EC3 product-class path
  // ---------------------------------------------------------------------

  /** The index of the first EC3 product class, or `|classes|` when there is none. */
  function FirstEc3Index(classes: seq<ProductClass>): (i: nat)
    ensures i <= |classes|
    ensures i < |classes| ==> classes[i].first == Some(Ec3Key)
    ensures forall j :: 0 <= j < i ==> classes[j].first != Some(Ec3Key)
  {
    if classes == [] then 0
    else if classes[0].first == Some(Ec3Key) then 0
    else 1 + FirstEc3Index(classes[1..])
  }

  /** The path `getPath` reads: the second part of the first EC3 class, if any. */
  function PathOf(classes: seq<ProductClass>): (path: Option<string>)
    ensures (forall j :: 0 <= j < |classes| ==> classes[j].first != Some(Ec3Key)) ==> path.None?
    ensures path.Some? ==>
      exists i :: (0 <= i < |classes| && classes[i].first == Some(Ec3Key) && classes[i].second == path
                   && forall j :: 0 <= j < i ==> classes[j].first != Some(Ec3Key))
    ensures forall i :: (0 <= i < |classes| && classes[i].first == Some(Ec3Key)
                         && (forall j :: 0 <= j < i ==> classes[j].first != Some(Ec3Key)))
                        ==> path == classes[i].second
  {
    var i := FirstEc3Index(classes);
    if i < |classes| then classes[i].second else None
  }

  /** Whether every character of `s` is one `String.trim` removes (at most U+0020). */
  predicate IsBlank(s: string) {
    forall k | 0 <= k < |s| :: s[k] <= ' '
  }

  /** Whether a path counts as absent (`Strings.nullOrEmpty`): null, or empty after trimming. */
  predicate NullOrEmpty(path: Option<string>)
    ensures path.None? ==> NullOrEmpty(path)
    ensures path.Some? && path.value == "" ==> NullOrEmpty(path)
    ensures path.Some? && |path.value| > 0 && path.value[0] > ' ' ==> !NullOrEmpty(path)
  {
    path.None? || IsBlank(path.value)
  }

  /** The product classes `setPath` leaves behind. */
  function ClassesFor(path: Option<string>): (classes: seq<ProductClass>)
    ensures NullOrEmpty(path) <==> classes == []
    ensures PathOf(classes) == if NullOrEmpty(path) then None else path
  {
    if NullOrEmpty(path) then [] else [ProductClass(Some(Ec3Key), path)]
  }

  /** Classes before the first EC3 class do not affect the path. */
  lemma {:induction false} PathOfSkipsOtherKeys(other: seq<ProductClass>, rest: seq<ProductClass>)
    requires forall j :: 0 <= j < |other| ==> other[j].first != Some(Ec3Key)
    ensures FirstEc3Index(other + rest) == |other| + FirstEc3Index(rest)
    ensures PathOf(other + rest) == PathOf(rest)
  {
    if other != [] {
      assert (other + rest)[1..] == other[1..] + rest;
      PathOfSkipsOtherKeys(other[1..], rest);
    }
    assert forall k :: 0 <= k < |rest| ==> (other + rest)[|other| + k] == rest[k];
  }

  // ---------------------------------------------------------------------
  // The mass unit
  // ---------------------------------------------------------------------

  /** The unit shown next to the mass: kilograms per declared unit. Java string
      concatenation writes a null unit name as "null". */
  function MassUnit(declaredUnit: Option<EpdQuantity>): (u: string)
    ensures |u| >= 3 && u[..3] == "kg/"
    ensures declaredUnit.None? ==> u[3..] == "??"
    ensures declaredUnit.Some? && declaredUnit.value.unit.Some? ==> u[3..] == declaredUnit.value.unit.value
    ensures declaredUnit.Some? && declaredUnit.value.unit.None? ==> u[3..] == "null"
  {
    match declaredUnit
    case None => "kg/??"
    case Some(q) => "kg/" + q.unit.GetOr("null")
  }

  // ---------------------------------------------------------------------
  // The document and the dialog
  // ---------------------------------------------------------------------

  /** The openEPD document the dialog exports. */
  class EpdDoc {
    var productClasses: seq<ProductClass>
    var declaredUnit: Option<EpdQuantity>

    constructor (productClasses: seq<ProductClass>, declaredUnit: Option<EpdQuantity>)
      ensures this.productClasses == productClasses && this.declaredUnit == declaredUnit
    {
      this.productClasses := productClasses;
      this.declaredUnit := declaredUnit;
    }
  }

  class Dialog {
    const epd: EpdDoc
    const existingId: Option<string>

    /** Derives the existing id from the model's URN. */
    constructor (urn: Option<string>, epd: EpdDoc)
      ensures this.epd == epd
      ensures existingId == ExistingId(urn)
    {
      this.epd := epd;
      existingId := ExistingId(urn);
    }
  }

  /** The category link of the dialog, which reads and writes the EC3 path. */
  class CategoryLink {
    const dialog: Dialog

    constructor (dialog: Dialog)
      ensures this.dialog == dialog
    {
      this.dialog := dialog;
    }

    /** Finds the first product class with the EC3 key and returns its path. */
    method GetPath() returns (path: Option<string>)
      ensures path == PathOf(dialog.epd.productClasses)
      ensures path.Some? ==> exists c :: c in dialog.epd.productClasses && c.first == Some(Ec3Key) && c.second == path
    {
      var classes := dialog.epd.productClasses;
      for i := 0 to |classes|
        invariant forall j :: 0 <= j < i ==> classes[j].first != Some(Ec3Key)
      {
        if classes[i].first == Some(Ec3Key) {
          return classes[i].second;
        }
      }
      return None;
    }

    /** Clears the product classes and, for a path that is not blank, adds the EC3 class. */
    method SetPath(path: Option<string>)
      modifies dialog.epd
      ensures dialog.epd.productClasses == ClassesFor(path)
      ensures dialog.epd.declaredUnit == old(dialog.epd.declaredUnit)
    {
      var doc := dialog.epd;
      doc.productClasses := [];
      if NullOrEmpty(path) {
        return;
      }
      doc.productClasses := doc.productClasses + [ProductClass(Some(Ec3Key), path)];
    }
  }

  /** Setting a non-blank path on the dialog's document and reading it back gives that path. */
  method SetThenGetPath(link: CategoryLink, path: string) returns (read: Option<string>)
    requires !IsBlank(path)
    modifies link.dialog.epd
    ensures read == Some(path)
    ensures link.dialog.epd.productClasses == [ProductClass(Some(Ec3Key), Some(path))]
  {
    link.SetPath(Some(path));
    read := link.GetPath();
  }
}
