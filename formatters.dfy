/**
 * The web client's display formatters: title case, truncation and the
 * status, role and food-type labels.
 *
 * The role and claim-status tables are ordinary object literals, and the
 * food-type check uses the `in` operator, so a lookup can reach members every
 * object inherits. Only two inherited names are entirely lower case, and a
 * normalised key is always lower case (`Normalize`), so those two are the
 * only keys where the written code and the evidently intended own-key lookup
 * part ways. Each such formatter appears twice below: as written, where the
 * result may be an inherited member, and corrected, which the rest of the
 * model uses.
 */
module Formatters {
  import opened Wrappers
  import Text
  import DT = DonationTypes

  // ---------------------------------------------------------------------------
  // Title case and truncation
  // ---------------------------------------------------------------------------

  /** `.replace(/[_-]/g, " ")`. */
  function Dashed(s: string): (r: string)
    ensures |r| == |s|
  {
    seq(|s|, i requires 0 <= i < |s| => if s[i] == '_' || s[i] == '-' then ' ' else s[i])
  }

  /** Position `i` of `t` is matched by `\b\w`: a word character with no word character before it. */
  predicate StartsWord(t: string, i: nat)
    requires i < |t|
  {
    Text.IsWordChar(t[i]) && (i == 0 || !Text.IsWordChar(t[i - 1]))
  }

  /** `.replace(/\b\w/g, (char) => char.toUpperCase())`. */
  function CapitalizeWords(t: string): (r: string)
    ensures |r| == |t|
    ensures forall i: nat :: i < |t| ==> r[i] == if StartsWord(t, i) then Text.Upper(t[i]) else t[i]
  {
    seq(|t|, i requires 0 <= i < |t| => if StartsWord(t, i) then Text.Upper(t[i]) else t[i])
  }

  /** `toTitleCase`: the dash replacement, then upper-casing every word-initial character. */
  function ToTitleCase(s: string): (r: string)
    ensures |r| == |s|
  {
    CapitalizeWords(Dashed(s))
  }

  /**
   * Title case works character by character: dashes and underscores become
   * spaces, a word-initial character is upper-cased, and every other
   * character stays as it was.
   */
  lemma TitleCaseCharacters(s: string)
    ensures forall i :: 0 <= i < |s| && (s[i] == '_' || s[i] == '-') ==> ToTitleCase(s)[i] == ' '
    ensures forall i: nat :: i < |s| && StartsWord(Dashed(s), i) ==> ToTitleCase(s)[i] == Text.Upper(s[i])
    ensures forall i: nat :: i < |s| && !StartsWord(Dashed(s), i) && s[i] != '_' && s[i] != '-' ==>
      ToTitleCase(s)[i] == s[i]
    ensures '_' !in ToTitleCase(s) && '-' !in ToTitleCase(s)
  {
  }

  /** Title case changes nothing the second time. */
  lemma TitleCaseIdempotent(s: string)
    ensures ToTitleCase(ToTitleCase(s)) == ToTitleCase(s)
  {
    var t := Dashed(s);
    var r := ToTitleCase(s);
    TitleCaseCharacters(s);
    assert Dashed(r) == r;
    forall i | 0 <= i < |r|
      ensures Text.IsWordChar(r[i]) <==> Text.IsWordChar(t[i])
    {
    }
    forall i: nat | i < |r|
      ensures StartsWord(r, i) <==> StartsWord(t, i)
    {
    }
    forall i: nat | i < |r|
      ensures ToTitleCase(r)[i] == r[i]
    {
      if StartsWord(r, i) {
        assert r[i] == Text.Upper(t[i]);
      }
    }
  }

  lemma TitleCaseExamples()
    ensures ToTitleCase("cooked_meal") == "Cooked Meal"
    ensures ToTitleCase("picked-up") == "Picked Up"
  {
    assert Dashed("cooked_meal") == "cooked meal";
    assert Dashed("picked-up") == "picked up";
  }

  /** `truncate`: `slice` counts a negative end from the back. */
  function Truncate(text: string, maxLength: int): (r: string)
    ensures |text| <= maxLength ==> r == text
    ensures 3 <= maxLength < |text| ==> |r| == maxLength && r == text[..maxLength - 3] + "..."
    ensures maxLength < |text| ==> |r| >= 3 && r[|r| - 3..] == "..."
  {
    if |text| <= maxLength then text else Text.SliceTo(text, maxLength - 3) + "..."
  }

  /**
   * The documented example does not match the code, and a limit below three
   * can make the result longer than the text.
   */
  lemma TruncateExamples()
    ensures Truncate("Very long text here", 10) == "Very lo..."
    ensures Truncate("abcdef", 2) == "abcde..."
  {
    assert "Very long text here"[..7] == "Very lo";
    assert Text.SliceTo("abcdef", -1) == "abcde";
  }

  // ---------------------------------------------------------------------------
  // Label lookups
  // ---------------------------------------------------------------------------

  /** `!value` for a string that may be absent. */
  predicate Falsy(v: Option<string>)
  {
    v.None? || v.value == ""
  }

  /** `String(v).toLowerCase().trim()`. */
  function Normalize(v: string): string
  {
    Text.Trim(Text.LowerString(v))
  }

  /** A normalised key holds no capital letter. */
  lemma NormalizedIsLower(v: string)
    ensures forall k :: 0 <= k < |Normalize(v)| ==> !Text.IsAsciiUpper(Normalize(v)[k])
  {
    Text.TrimKeepsCharacters(Text.LowerString(v));
  }

  /** A key of lower-case letters and underscores is already normalised. */
  lemma NormalizeKey(v: string)
    requires forall k :: 0 <= k < |v| ==> Text.IsAsciiLower(v[k]) || v[k] == '_'
    ensures Normalize(v) == v
  {
    Text.LowerStringNoUpper(v);
    Text.TrimNoOp(v);
  }

  lemma NormalizedConstructor()
    ensures Normalize("constructor") == "constructor"
  {
    NormalizeKey("constructor");
  }

  /** The members of `Object.prototype` whose names are entirely lower case. */
  predicate InheritedKey(k: string)
  {
    k == "constructor" || k == "__proto__"
  }

  /** What `table[key]` yields on an object literal with the own entry `own`. */
  datatype Lookup = Own(text: string) | FromPrototype | Undefined

  function ObjectLookup(own: Option<string>, key: string): (r: Lookup)
    ensures r.Own? <==> own.Some?
    ensures r == FromPrototype <==> own.None? && InheritedKey(key)
  {
    match own
    case Some(t) => Own(t)
    case None => if InheritedKey(key) then FromPrototype else Undefined
  }

  /** A formatter's result as written: a label, or an inherited member standing in for one. */
  datatype Shown = Label(text: string) | Inherited(key: string)

  /** `table[key] ?? toTitleCase(key)`. */
  function LabelOrTitle(l: Lookup, key: string): (r: Shown)
    ensures l.Own? ==> r == Label(l.text)
    ensures l == FromPrototype ==> r == Inherited(key)
    ensures l == Undefined ==> r == Label(ToTitleCase(key))
  {
    match l
    case Own(t) => Label(t)
    case FromPrototype => Inherited(key)
    case Undefined => Label(ToTitleCase(key))
  }

  // --- claim status ----------------------------------------------------------

  /** The own entries of this file's claim-status table. */
  function ClaimStatusEntry(key: string): Option<string>
  {
    if key == "active" then Some("Active")
    else if key == "picked_up" then Some("Picked Up")
    else if key == "delivered" then Some("Delivered")
    else if key == "cancelled" then Some("Cancelled")
    else None
  }

  /** `CLAIM_STATUS_LABELS[key] ?? toTitleCase(key)` as written, for a normalised key. */
  function ClaimStatusOfKeyAsWritten(key: string): (r: Shown)
    ensures r.Inherited? <==> InheritedKey(key)
    ensures !InheritedKey(key) ==> r == Label(ClaimStatusOfKey(key))
  {
    LabelOrTitle(ObjectLookup(ClaimStatusEntry(key), key), key)
  }

  /** The same with an own-key lookup. */
  function ClaimStatusOfKey(key: string): string
  {
    match ClaimStatusEntry(key)
    case Some(entry) => entry
    case None => ToTitleCase(key)
  }

  function FormatClaimStatusAsWritten(status: Option<string>): (r: Shown)
    ensures Falsy(status) ==> r == Label("Unknown")
    ensures r.Inherited? <==> !Falsy(status) && InheritedKey(Normalize(status.value))
  {
    if Falsy(status) then Label("Unknown") else ClaimStatusOfKeyAsWritten(Normalize(status.value))
  }

  /** `formatClaimStatus("constructor")` hands back `Object` itself, not a string. */
  lemma ClaimStatusReachesPrototype()
    ensures FormatClaimStatusAsWritten(Some("constructor")) == Inherited("constructor")
  {
    NormalizedConstructor();
  }

  /** `formatClaimStatus` with an own-key lookup. */
  function FormatClaimStatus(status: Option<string>): (r: string)
    ensures Falsy(status) ==> r == "Unknown"
    ensures !Falsy(status) && ClaimStatusEntry(Normalize(status.value)).Some? ==>
      r == ClaimStatusEntry(Normalize(status.value)).value
    ensures !Falsy(status) && ClaimStatusEntry(Normalize(status.value)).None? ==>
      r == ToTitleCase(Normalize(status.value))
  {
    if Falsy(status) then "Unknown" else ClaimStatusOfKey(Normalize(status.value))
  }

  /** Apart from the two inherited names, the written formatter and the corrected one agree. */
  lemma ClaimStatusAgreesOffPrototype(status: Option<string>)
    requires !Falsy(status) ==> !InheritedKey(Normalize(status.value))
    ensures FormatClaimStatusAsWritten(status) == Label(FormatClaimStatus(status))
  {
  }

  /** Upper-case input gets the same label. */
  lemma ClaimStatusIgnoresCase(s: string)
    requires s != ""
    ensures FormatClaimStatus(Some(Text.UpperString(s))) == FormatClaimStatus(Some(s))
  {
    Text.LowerAfterUpper(s);
  }

  lemma ClaimStatusLabels()
    ensures FormatClaimStatus(Some("picked_up")) == "Picked Up"
  {
    NormalizeKey("picked_up");
  }

  /** The corrected formatter title-cases an inherited name like any other unknown key. */
  lemma ClaimStatusOfInheritedName()
    ensures FormatClaimStatus(Some("constructor")) == "Constructor"
  {
    NormalizedConstructor();
    TitleCaseConstructor();
  }

  lemma TitleCaseConstructor()
    ensures ToTitleCase("constructor") == "Constructor"
  {
  }

  // --- user role -------------------------------------------------------------

  function RoleEntry(key: string): Option<string>
  {
    if key == "donor" then Some("Donor")
    else if key == "volunteer" then Some("Volunteer")
    else if key == "recipient" then Some("Recipient")
    else if key == "admin" then Some("Administrator")
    else None
  }

  /** `ROLE_LABELS[key] ?? toTitleCase(key)` as written, for a normalised key. */
  function RoleOfKeyAsWritten(key: string): (r: Shown)
    ensures r.Inherited? <==> InheritedKey(key)
    ensures !InheritedKey(key) ==> r == Label(RoleOfKey(key))
  {
    LabelOrTitle(ObjectLookup(RoleEntry(key), key), key)
  }

  function RoleOfKey(key: string): string
  {
    match RoleEntry(key)
    case Some(entry) => entry
    case None => ToTitleCase(key)
  }

  function FormatUserRoleAsWritten(role: Option<string>): (r: Shown)
    ensures Falsy(role) ==> r == Label("User")
    ensures r.Inherited? <==> !Falsy(role) && InheritedKey(Normalize(role.value))
  {
    if Falsy(role) then Label("User") else RoleOfKeyAsWritten(Normalize(role.value))
  }

  lemma UserRoleReachesPrototype()
    ensures FormatUserRoleAsWritten(Some("constructor")) == Inherited("constructor")
  {
    NormalizedConstructor();
  }

  /** `formatUserRole` with an own-key lookup. */
  function FormatUserRole(role: Option<string>): (r: string)
    ensures Falsy(role) ==> r == "User"
    ensures !Falsy(role) && RoleEntry(Normalize(role.value)).Some? ==> r == RoleEntry(Normalize(role.value)).value
    ensures !Falsy(role) && RoleEntry(Normalize(role.value)).None? ==> r == ToTitleCase(Normalize(role.value))
  {
    if Falsy(role) then "User" else RoleOfKey(Normalize(role.value))
  }

  lemma UserRoleAgreesOffPrototype(role: Option<string>)
    requires !Falsy(role) ==> !InheritedKey(Normalize(role.value))
    ensures FormatUserRoleAsWritten(role) == Label(FormatUserRole(role))
  {
  }

  lemma UserRoleLabels()
    ensures FormatUserRole(Some("admin")) == "Administrator"
  {
    NormalizeKey("admin");
  }

  // --- food type -------------------------------------------------------------

  /** The enum object's own keys are its member names. */
  function FoodTypeOfKey(key: string): (r: Option<DT.FoodType>)
    ensures r.Some? ==> DT.FoodKey(r.value) == key && |key| > 0 && Text.IsAsciiUpper(key[0])
  {
    if key == "CookedMeal" then Some(DT.CookedMeal)
    else if key == "Groceries" then Some(DT.Groceries)
    else if key == "Bakery" then Some(DT.Bakery)
    else if key == "Vegetables" then Some(DT.Vegetables)
    else if key == "Canned" then Some(DT.Canned)
    else if key == "Dairy" then Some(DT.Dairy)
    else if key == "Beverages" then Some(DT.Beverages)
    else if key == "Other" then Some(DT.Other)
    else None
  }

  /** `key in FoodType`. */
  predicate InFoodTypeObject(key: string)
  {
    FoodTypeOfKey(key).Some? || InheritedKey(key)
  }

  /** `FOOD_TYPE_LABELS[key]`: that table is keyed by the enum values. */
  function FoodLabelLookup(key: string): Lookup
  {
    ObjectLookup(match DT.FoodTypeOfValue(key) case Some(f) => Some(DT.FoodLabel(f)) case None => None, key)
  }

  /** The body of `formatFoodType` after normalisation, as written. */
  function FoodTypeOfKeyAsWritten(key: string): (r: Shown)
    ensures FoodTypeOfKey(key).None? ==> (r.Inherited? <==> InheritedKey(key))
    ensures FoodTypeOfKey(key).None? && !InheritedKey(key) ==> r == Label(FoodTypeLabelOfKey(key))
    ensures InheritedKey(key) ==> r == Inherited(key)
  {
    if InFoodTypeObject(key) then LabelOrTitle(FoodLabelLookup(key), key)
    else if DT.FoodTypeOfValue(key).Some? then LabelOrTitle(FoodLabelLookup(key), key)
    else Label(ToTitleCase(key))
  }

  function FoodTypeLabelOfKey(key: string): string
  {
    match DT.FoodTypeOfValue(key)
    case Some(f) => DT.FoodLabel(f)
    case None => ToTitleCase(key)
  }

  /** Every member name starts with a capital, so `in FoodType` never holds for an own key. */
  lemma OwnKeyBranchIsDead(v: string)
    ensures FoodTypeOfKey(Normalize(v)) == None
  {
    NormalizedIsLower(v);
  }

  function FormatFoodTypeAsWritten(foodType: Option<string>): (r: Shown)
    ensures Falsy(foodType) ==> r == Label("Food")
    ensures r.Inherited? <==> !Falsy(foodType) && InheritedKey(Normalize(foodType.value))
    ensures !Falsy(foodType) && InheritedKey(Normalize(foodType.value)) ==> r == Inherited(Normalize(foodType.value))
  {
    if Falsy(foodType) then Label("Food")
    else
      OwnKeyBranchIsDead(foodType.value);
      FoodTypeOfKeyAsWritten(Normalize(foodType.value))
  }

  lemma FoodTypeReachesPrototype()
    ensures FormatFoodTypeAsWritten(Some("constructor")) == Inherited("constructor")
  {
    NormalizedConstructor();
  }

  /** `formatFoodType` without the `in` test, which can only ever match an inherited name. */
  function FormatFoodType(foodType: Option<string>): (r: string)
    ensures Falsy(foodType) ==> r == "Food"
    ensures !Falsy(foodType) && DT.FoodTypeOfValue(Normalize(foodType.value)).Some? ==>
      r == DT.FoodLabel(DT.FoodTypeOfValue(Normalize(foodType.value)).value)
    ensures !Falsy(foodType) && DT.FoodTypeOfValue(Normalize(foodType.value)).None? ==>
      r == ToTitleCase(Normalize(foodType.value))
  {
    if Falsy(foodType) then "Food" else FoodTypeLabelOfKey(Normalize(foodType.value))
  }

  lemma FoodTypeAgreesOffPrototype(foodType: Option<string>)
    requires !Falsy(foodType) ==> !InheritedKey(Normalize(foodType.value))
    ensures FormatFoodTypeAsWritten(foodType) == Label(FormatFoodType(foodType))
  {
    if !Falsy(foodType) {
      OwnKeyBranchIsDead(foodType.value);
    }
  }

  /** Every value gets its label. */
  lemma FoodTypeLabels(f: DT.FoodType)
    ensures FormatFoodType(Some(DT.FoodValue(f))) == DT.FoodLabel(f)
  {
    FoodValueIsNormal(f);
    assert DT.FoodTypeOfValue(DT.FoodValue(f)) == Some(f);
  }

  lemma FoodValueIsNormal(f: DT.FoodType)
    ensures Normalize(DT.FoodValue(f)) == DT.FoodValue(f)
  {
    var v := DT.FoodValue(f);
    assert forall k :: 0 <= k < |v| ==> Text.IsAsciiLower(v[k]) || v[k] == '_';
    NormalizeKey(v);
  }

  /** Upper-case input gets the same label. */
  lemma FoodTypeIgnoresCase(s: string)
    requires s != ""
    ensures FormatFoodType(Some(Text.UpperString(s))) == FormatFoodType(Some(s))
  {
    Text.LowerAfterUpper(s);
  }

  // --- donation status -------------------------------------------------------

  function DonationStatusOfKey(key: string): string
  {
    match DT.StatusOfValue(key)
    case Some(s) => DT.Label(s)
    case None => ToTitleCase(key)
  }

  /** `formatDonationStatus`: an `includes` test on the enum values guards the lookup. */
  function FormatDonationStatus(status: Option<string>): (r: string)
    ensures Falsy(status) ==> r == "Unknown"
    ensures !Falsy(status) && DT.StatusOfValue(Normalize(status.value)).Some? ==>
      r == DT.Label(DT.StatusOfValue(Normalize(status.value)).value)
    ensures !Falsy(status) && DT.StatusOfValue(Normalize(status.value)).None? ==>
      r == ToTitleCase(Normalize(status.value))
  {
    if Falsy(status) then "Unknown" else DonationStatusOfKey(Normalize(status.value))
  }

  /** Pending is shown as "Available". */
  lemma DonationStatusLabels()
    ensures FormatDonationStatus(Some("pending")) == "Available"
  {
    NormalizeKey("pending");
  }

  /** The server's `reserved` is no client status and gets title case. */
  lemma ReservedGetsTitleCase()
    ensures FormatDonationStatus(Some("reserved")) == "Reserved"
  {
    NormalizeKey("reserved");
    TitleCaseReserved();
  }

  lemma TitleCaseReserved()
    ensures ToTitleCase("reserved") == "Reserved"
  {
  }
}
