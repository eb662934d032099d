/**
 * The request bodies the API controllers validate, and the meaning of the
 * validation rules they use. A field is Absent when its key is not in the
 * request. A JSON string is `Str`: its text, together with what the
 * `numeric` rule and the date parser read in it, if anything. The numeric
 * reading of "10.5" is scaled to the unit of the column the field is meant
 * for (hundredths of a kilogram, 1e-7 degrees), and the date reading is the
 * instant the string denotes. A JSON number is `Number`, scaled the same
 * way. `Other` is any other JSON value (a boolean, an array, an object).
 * The `string` rules look only at the text, so a six-digit code, the title
 * "1984" or the notes "5" are strings like any other; only the `numeric`
 * and `date` rules use the readings.
 */
module Requests {
  import opened Wrappers
  import Text

  datatype Input =
    | Absent
    | Null
    | Str(s: string, numeric: Option<int>, date: Option<int>)
    | Number(n: int)
    | Other

  /** What `numeric` accepts: a JSON number, or a string it reads as one. */
  predicate IsNumeric(v: Input)
  {
    v.Number? || (v.Str? && v.numeric.Some?)
  }

  /** The number a value `numeric` accepts stands for. */
  function NumberOf(v: Input): (n: int)
    requires IsNumeric(v)
    ensures v.Number? ==> n == v.n
    ensures v.Str? ==> Some(n) == v.numeric
  {
    if v.Number? then v.n else v.numeric.value
  }

  /** What `date` accepts: a string the date parser reads. */
  predicate IsDate(v: Input)
  {
    v.Str? && v.date.Some?
  }

  /** `required`: present, not null, and not a string that trims to nothing. */
  predicate Required(v: Input)
  {
    !v.Absent? && !v.Null? && !(v.Str? && Text.PhpTrim(v.s) == "")
  }

  /**
   * A field without `required` is only checked when present; `nullable`
   * also lets null through, and the validator runs no rule but an implicit
   * one (such as `required`) on a string that trims to nothing.
   */
  predicate Skipped(v: Input, nullable: bool)
  {
    v.Absent? || (nullable && v.Null?) || (v.Str? && Text.PhpTrim(v.s) == "")
  }

  /**
   * What the framework's global middleware makes of a value before the
   * controller sees it: `TrimStrings` trims every string and
   * `ConvertEmptyStringsToNull` turns the empty string that may leave into
   * null. A prepared string is never blank and has nothing left to trim;
   * it keeps its readings, since neither `numeric` nor the date parser
   * minds the whitespace around a value.
   */
  function Prepare(v: Input): (p: Input)
    ensures !v.Str? ==> p == v
    ensures v.Str? ==> (p == Null <==> Text.PhpTrim(v.s) == "")
    ensures p.Str? ==> v.Str? && p.s == Text.PhpTrim(v.s) && p.s != "" && Text.PhpTrim(p.s) == p.s
    ensures p.Str? ==> p.numeric == v.numeric && p.date == v.date
  {
    if !v.Str? then v
    else
      var t := Text.PhpTrim(v.s);
      Text.PhpTrimIdempotent(v.s);
      if t == "" then Null else v.(s := t)
  }

  /** The middleware has nothing left to do on a request it already went through. */
  lemma PrepareIdempotent(v: Input)
    ensures Prepare(Prepare(v)) == Prepare(v)
  {
  }

  /** No prepared value is ever skipped as a blank string: what a skip lets through is absent or null. */
  lemma PreparedSkip(v: Input, nullable: bool)
    ensures Skipped(Prepare(v), nullable) <==> Prepare(v).Absent? || (nullable && Prepare(v).Null?)
  {
  }

  const MinQuantityHundredths: int := 10      // min:0.1
  const MaxQuantityHundredths: int := 100_000 // max:1000
  const LatitudeBound: int := 900_000_000     // between:-90,90
  const LongitudeBound: int := 1_800_000_000  // between:-180,180
  const TitleMaxLength: nat := 255
  const NotesMaxLength: nat := 500
  const PickupCodeLength: nat := 6

  predicate QuantityInRange(v: Input)
  {
    IsNumeric(v) && MinQuantityHundredths <= NumberOf(v) <= MaxQuantityHundredths
  }

  /** `after:now`, on a value that also passed `date`. */
  predicate AfterNow(v: Input, now: int)
  {
    IsDate(v) && v.date.value > now
  }

  // ---- store: DonationController.php lines 58-65 ----

  predicate StoreTitleOk(v: Input)      { Required(v) && v.Str? && |v.s| <= TitleMaxLength }
  predicate DescriptionOk(v: Input)     { Skipped(v, true) || v.Str? }
  predicate StoreQuantityOk(v: Input)   { Required(v) && QuantityInRange(v) }
  predicate LatitudeOk(v: Input)        { Required(v) && IsNumeric(v) && -LatitudeBound <= NumberOf(v) <= LatitudeBound }
  predicate LongitudeOk(v: Input)       { Required(v) && IsNumeric(v) && -LongitudeBound <= NumberOf(v) <= LongitudeBound }
  predicate ExpiryOk(v: Input, now: int) { Skipped(v, true) || AfterNow(v, now) }

  /** The keys of the 422 error bag for a store request. */
  function StoreErrors(title: Input, description: Input, quantity: Input, latitude: Input,
                       longitude: Input, expiresAt: Input, now: int): (errors: set<string>)
    ensures errors <= {"title", "description", "quantity_kg", "latitude", "longitude", "expires_at"}
    ensures "title" in errors <==> !StoreTitleOk(title)
    ensures "quantity_kg" in errors <==> !StoreQuantityOk(quantity)
    ensures "latitude" in errors <==> !LatitudeOk(latitude)
    ensures "longitude" in errors <==> !LongitudeOk(longitude)
    ensures "expires_at" in errors <==> !ExpiryOk(expiresAt, now)
    ensures "description" in errors <==> !DescriptionOk(description)
  {
    (if StoreTitleOk(title) then {} else {"title"})
    + (if DescriptionOk(description) then {} else {"description"})
    + (if StoreQuantityOk(quantity) then {} else {"quantity_kg"})
    + (if LatitudeOk(latitude) then {} else {"latitude"})
    + (if LongitudeOk(longitude) then {} else {"longitude"})
    + (if ExpiryOk(expiresAt, now) then {} else {"expires_at"})
  }

  /** What an accepted store request is known to carry. */
  lemma StoreAcceptsOnlyInRange(title: Input, description: Input, quantity: Input, latitude: Input,
                                longitude: Input, expiresAt: Input, now: int)
    requires StoreErrors(title, description, quantity, latitude, longitude, expiresAt, now) == {}
    ensures title.Str? && 0 < |title.s| <= 255 && Text.PhpTrim(title.s) != ""
    ensures IsNumeric(quantity) && 10 <= NumberOf(quantity) <= 100_000
    ensures IsNumeric(latitude) && -900_000_000 <= NumberOf(latitude) <= 900_000_000
    ensures IsNumeric(longitude) && -1_800_000_000 <= NumberOf(longitude) <= 1_800_000_000
    ensures expiresAt.Absent? || expiresAt.Null? || (IsDate(expiresAt) && expiresAt.date.value > now)
            || (expiresAt.Str? && Text.PhpTrim(expiresAt.s) == "")
  {
    assert StoreTitleOk(title);
  }

  // ---- update: DonationController.php lines 201-206, every rule under `sometimes` ----

  predicate UpdateTitleOk(v: Input)     { Skipped(v, false) || (v.Str? && |v.s| <= TitleMaxLength) }
  predicate UpdateQuantityOk(v: Input)  { Skipped(v, false) || QuantityInRange(v) }

  function UpdateErrors(title: Input, description: Input, quantity: Input, expiresAt: Input, now: int): (errors: set<string>)
    ensures errors <= {"title", "description", "quantity_kg", "expires_at"}
    ensures "title" in errors <==> !UpdateTitleOk(title)
    ensures "description" in errors <==> !DescriptionOk(description)
    ensures "quantity_kg" in errors <==> !UpdateQuantityOk(quantity)
    ensures "expires_at" in errors <==> !ExpiryOk(expiresAt, now)
  {
    (if UpdateTitleOk(title) then {} else {"title"})
    + (if DescriptionOk(description) then {} else {"description"})
    + (if UpdateQuantityOk(quantity) then {} else {"quantity_kg"})
    + (if ExpiryOk(expiresAt, now) then {} else {"expires_at"})
  }

  /**
   * A blank `expires_at` is no error, on store or on update: as the
   * controller receives it, it is null, which `nullable` lets through, and
   * the validator would skip the blank string itself as well.
   */
  lemma BlankExpiryAccepted(s: string, numeric: Option<int>, date: Option<int>, now: int)
    requires Text.PhpTrim(s) == ""
    ensures Prepare(Str(s, numeric, date)) == Null
    ensures ExpiryOk(Prepare(Str(s, numeric, date)), now) && ExpiryOk(Str(s, numeric, date), now)
  {
  }

  /**
   * An all-blank title: store refuses it through `required`. Update has no
   * `required`, yet it refuses the title too, because the middleware has
   * made it null and `string` fails on null; only the blank string itself
   * would have been skipped. An empty update validates.
   */
  lemma BlankTitle(now: int)
    ensures "title" in StoreErrors(Prepare(Str("   ", None, None)), Absent, Number(100), Number(0), Number(0), Absent, now)
    ensures UpdateErrors(Prepare(Str("   ", None, None)), Absent, Absent, Absent, now) == {"title"}
    ensures UpdateErrors(Str("   ", None, None), Absent, Absent, Absent, now) == {}
    ensures UpdateErrors(Absent, Absent, Absent, Absent, now) == {}
  {
    assert Text.PhpTrim("   ") == "" by {
      assert Text.TrimStart("   ", Text.IsPhpWhitespace) == Text.TrimStart("  ", Text.IsPhpWhitespace);
      assert Text.TrimStart("  ", Text.IsPhpWhitespace) == Text.TrimStart(" ", Text.IsPhpWhitespace);
    }
  }

  // ---- ClaimController.php lines 47-49 and 88-90 ----

  predicate PickupCodeOk(v: Input)
  {
    Required(v) && v.Str? && |v.s| == PickupCodeLength
  }

  predicate NotesOk(v: Input)
  {
    Skipped(v, true) || (v.Str? && |v.s| <= NotesMaxLength)
  }

  /**
   * The `string` rules look at the text alone: whatever `numeric` or the
   * date parser would read in it, a string is judged on its length.
   */
  lemma StringRulesIgnoreReadings(s: string, numeric: Option<int>, date: Option<int>)
    ensures StoreTitleOk(Str(s, numeric, date)) <==> Text.PhpTrim(s) != "" && |s| <= TitleMaxLength
    ensures UpdateTitleOk(Str(s, numeric, date)) <==> Text.PhpTrim(s) == "" || |s| <= TitleMaxLength
    ensures DescriptionOk(Str(s, numeric, date))
    ensures PickupCodeOk(Str(s, numeric, date)) <==> Text.PhpTrim(s) != "" && |s| == PickupCodeLength
    ensures NotesOk(Str(s, numeric, date)) <==> Text.PhpTrim(s) == "" || |s| <= NotesMaxLength
  {
  }

  /** The title "1984" is stored, whatever `numeric` reads in it. */
  lemma NumericTitleStored(numeric: Option<int>, date: Option<int>, now: int)
    ensures StoreErrors(Prepare(Str("1984", numeric, date)), Absent, Number(100), Number(0), Number(0), Absent, now) == {}
  {
    Text.PhpTrimNoOp("1984");
    assert StoreTitleOk(Prepare(Str("1984", numeric, date)));
  }

  /** The title "2025-01-01" is a valid update, whatever the date parser reads in it. */
  lemma DateTitleUpdated(numeric: Option<int>, date: Option<int>, now: int)
    ensures UpdateErrors(Prepare(Str("2025-01-01", numeric, date)), Absent, Absent, Absent, now) == {}
  {
    Text.PhpTrimNoOp("2025-01-01");
    assert UpdateTitleOk(Prepare(Str("2025-01-01", numeric, date)));
  }

  /** The notes "5" and the code "123456" are strings like any other. */
  lemma NumericNotesAndCode(numeric: Option<int>, date: Option<int>)
    ensures NotesOk(Prepare(Str("5", numeric, date)))
    ensures PickupCodeOk(Prepare(Str("123456", numeric, date)))
  {
    Text.PhpTrimNoOp("5");
    Text.PhpTrimNoOp("123456");
  }
}
