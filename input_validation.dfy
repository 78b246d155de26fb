/**
 * The three validators of the location form: the free-text query check,
 * the coordinate range check and the combined check that adds the
 * "looks like initials" heuristic.
 */
module LocationValidation {

  /** A JavaScript number as the validators see it: a finite value, or NaN / +-Infinity. */
  datatype Number = Finite(value: real) | NonFinite

  /** The `{ valid, message }` record of the single-field validators. */
  datatype Check = Check(valid: bool, message: string)

  /** The `{ valid, errors }` record of the combined validator. */
  datatype Report = Report(valid: bool, errors: seq<string>)

  const MSG_EMPTY: string := "Please enter a city name"
  const MSG_TOO_SHORT: string := "Location name must be at least 2 characters"
  const MSG_TOO_LONG: string := "Location name is too long (max 100 characters)"
  const MSG_BAD_CHARS: string := "Location contains invalid characters"
  const MSG_NON_FINITE: string := "Invalid coordinates received"
  const MSG_LATITUDE: string := "Latitude must be between -90 and 90"
  const MSG_LONGITUDE: string := "Longitude must be between -180 and 180"
  const MSG_INITIALS: string := "Location name appears to be just initials"

  /* ---------- characters ---------- */

  /**
   * The characters matched by JavaScript's `\s`, which are also exactly the
   * ones `String.prototype.trim` removes (WhiteSpace and LineTerminator).
   */
  predicate IsSpace(c: char) {
    || c == '\t' || c == '\n' || c == '\U{B}' || c == '\U{C}' || c == '\r'
    || c == ' ' || c == '\U{A0}' || c == '\U{1680}'
    || ('\U{2000}' <= c <= '\U{200A}')
    || c == '\U{2028}' || c == '\U{2029}' || c == '\U{202F}' || c == '\U{205F}'
    || c == '\U{3000}' || c == '\U{FEFF}'
  }

  /** The character class `[a-zA-Z0-9\s\-,.']` of the query pattern. */
  predicate AllowedChar(c: char) {
    || ('a' <= c <= 'z') || ('A' <= c <= 'Z') || ('0' <= c <= '9')
    || IsSpace(c) || c == '-' || c == ',' || c == '.' || c == '\''
  }

  /** A separator of the initials heuristic: the class `[\s,]`. */
  predicate IsSep(c: char) {
    IsSpace(c) || c == ','
  }

  /** `!s.trim()`: nothing but whitespace (the empty string included). */
  predicate IsBlank(s: string) {
    forall i :: 0 <= i < |s| ==> IsSpace(s[i])
  }

  /* ---------- trim ---------- */

  /** The index of the first non-space character at or after `i`, or `|s|`. */
  function SkipSpaces(s: string, i: nat): (j: nat)
    requires i <= |s|
    ensures i <= j <= |s|
    ensures forall k :: i <= k < j ==> IsSpace(s[k])
    ensures j < |s| ==> !IsSpace(s[j])
    decreases |s| - i
  {
    if i == |s| || !IsSpace(s[i]) then i else SkipSpaces(s, i + 1)
  }

  /** The end of `s[..j]` once its trailing spaces are cut off. */
  function CutSpaces(s: string, j: nat): (e: nat)
    requires j <= |s|
    ensures e <= j
    ensures forall k :: e <= k < j ==> IsSpace(s[k])
    ensures e > 0 ==> !IsSpace(s[e - 1])
  {
    if j == 0 || !IsSpace(s[j - 1]) then j else CutSpaces(s, j - 1)
  }

  /**
   * `s.trim()`: the slice of `s` left once the white space at both ends is
   * cut off, which starts and ends with a non-space.
   */
  function Trim(s: string): (r: string)
    ensures r == [] <==> IsBlank(s)
    ensures r != [] ==> !IsSpace(r[0]) && !IsSpace(r[|r| - 1])
  {
    var i := SkipSpaces(s, 0);
    var e := CutSpaces(s, |s|);
    if i < e then s[i..e] else []
  }

  /** `trim` keeps a slice of its string and cuts off only white space, at both ends. */
  lemma TrimCutsBlankEnds(s: string)
    ensures exists i, e :: 0 <= i <= e <= |s| && Trim(s) == s[i..e] && IsBlank(s[..i]) && IsBlank(s[e..])
  {
    var i := SkipSpaces(s, 0);
    var e := CutSpaces(s, |s|);
    if i < e {
      assert IsBlank(s[..i]) && IsBlank(s[e..]);
      assert Trim(s) == s[i..e];
    } else {
      assert IsBlank(s) && s[..0] == [] && s[0..] == s;
      assert Trim(s) == s[0..0];
    }
  }

  /* ---------- split on /[\s,]+/ ---------- */

  /** The index of the first separator at or after `i`, or `|s|`. */
  function NextSep(s: string, i: nat): (j: nat)
    requires i <= |s|
    ensures i <= j <= |s|
    ensures forall k :: i <= k < j ==> !IsSep(s[k])
    ensures j < |s| ==> IsSep(s[j])
    decreases |s| - i
  {
    if i == |s| || IsSep(s[i]) then i else NextSep(s, i + 1)
  }

  /** The end of the run of separators that starts at `i`. */
  function SkipSeps(s: string, i: nat): (j: nat)
    requires i <= |s|
    ensures i <= j <= |s|
    ensures forall k :: i <= k < j ==> IsSep(s[k])
    ensures j < |s| ==> !IsSep(s[j])
    decreases |s| - i
  {
    if i == |s| || !IsSep(s[i]) then i else SkipSeps(s, i + 1)
  }

  /**
   * `s.split(/[\s,]+/)`: the pieces between maximal runs of separators. A
   * leading or trailing run yields an empty first or last piece, and the
   * empty string yields one empty piece.
   */
  function Split(s: string): (r: seq<string>)
    ensures r != []
    ensures forall p, k :: 0 <= p < |r| && 0 <= k < |r[p]| ==> !IsSep(r[p][k])
    ensures (forall k :: 0 <= k < |s| ==> !IsSep(s[k])) ==> r == [s]
    decreases |s|
  {
    var i := NextSep(s, 0);
    if i == |s| then [s]
    else
      var j := SkipSeps(s, i);
      [s[..i]] + Split(s[j..])
  }

  /** `pieces` with `runs` in between: `pieces[0] + runs[0] + pieces[1] + ... + pieces[|runs|]`. */
  function Weave(pieces: seq<string>, runs: seq<string>): string
    requires |pieces| == |runs| + 1
    decreases |runs|
  {
    if runs == [] then pieces[0] else pieces[0] + runs[0] + Weave(pieces[1..], runs[1..])
  }

  /**
   * `s` cut into `pieces` at the separator runs `runs`: woven back together
   * they give `s`, every run is a non-empty stretch of separators, and only
   * the first and the last piece may be empty.
   */
  predicate CutAt(s: string, pieces: seq<string>, runs: seq<string>) {
    && |pieces| == |runs| + 1
    && (forall t :: 0 <= t < |runs| ==> runs[t] != [] && forall k :: 0 <= k < |runs[t]| ==> IsSep(runs[t][k]))
    && (forall p :: 0 < p < |pieces| - 1 ==> pieces[p] != [])
    && Weave(pieces, runs) == s
  }

  /** `split` cuts its string at maximal runs of separators: weaving the pieces back gives the string. */
  lemma {:induction false} SplitRoundTrip(s: string)
    ensures exists runs :: CutAt(s, Split(s), runs)
    decreases |s|
  {
    var i := NextSep(s, 0);
    if i == |s| {
      assert CutAt(s, Split(s), []);
    } else {
      var j := SkipSeps(s, i);
      SplitRoundTrip(s[j..]);
      var rest :| CutAt(s[j..], Split(s[j..]), rest);
      SplitRoundTripStep(s, i, j, rest);
    }
  }

  /** The cut of `s` is its first piece and separator run in front of the cut of the rest. */
  lemma SplitRoundTripStep(s: string, i: nat, j: nat, rest: seq<string>)
    requires i == NextSep(s, 0) && i < |s| && j == SkipSeps(s, i)
    requires CutAt(s[j..], Split(s[j..]), rest)
    ensures CutAt(s, Split(s), [s[i..j]] + rest)
  {
    var t := s[j..];
    var later := Split(t);
    var piece, run := s[..i], s[i..j];
    assert Split(s) == [piece] + later;
    assert s == piece + run + t;
    assert |later| > 1 ==> later[0] != [] by {
      if j < |s| {
        SplitHeadNonEmpty(t);
      } else {
        assert later == [t];
      }
    }
    assert run != [] && forall k :: 0 <= k < |run| ==> IsSep(run[k]) by {
      assert forall k :: 0 <= k < |run| ==> run[k] == s[i + k];
    }
    CutAtFront(s, piece, run, t, later, rest);
  }

  /** A string that starts with a non-separator has a non-empty first piece. */
  lemma SplitHeadNonEmpty(t: string)
    requires t != [] && !IsSep(t[0])
    ensures Split(t)[0] != []
  {
    assert NextSep(t, 0) > 0;
  }

  /** Weaving a first piece and run in front of a woven string. */
  lemma WeaveFront(piece: string, run: string, pieces: seq<string>, runs: seq<string>)
    requires |pieces| == |runs| + 1
    ensures Weave([piece] + pieces, [run] + runs) == piece + run + Weave(pieces, runs)
  {
    assert ([piece] + pieces)[1..] == pieces;
    assert ([run] + runs)[1..] == runs;
  }

  /** A cut of `t`, with one more piece and run in front, is a cut of `piece + run + t`. */
  lemma CutAtFront(s: string, piece: string, run: string, t: string, pieces: seq<string>, runs: seq<string>)
    requires s == piece + run + t && CutAt(t, pieces, runs)
    requires run != [] && forall k :: 0 <= k < |run| ==> IsSep(run[k])
    requires |pieces| > 1 ==> pieces[0] != []
    ensures CutAt(s, [piece] + pieces, [run] + runs)
  {
    WeaveFront(piece, run, pieces, runs);
  }

  /** The source's test: every piece of the trimmed, split name has length 1. */
  predicate LooksLikeInitials(name: string) {
    AllSingles(Split(Trim(name)))
  }

  /**
   * An independent description of the strings all of whose pieces have length 1:
   * non-empty, starting and ending with a non-separator, and no two
   * non-separators side by side.
   */
  predicate InitialsShape(t: string) {
    && |t| > 0
    && !IsSep(t[0])
    && !IsSep(t[|t| - 1])
    && forall k :: 0 <= k < |t| - 1 ==> IsSep(t[k]) || IsSep(t[k + 1])
  }

  /** Every piece has length exactly 1. */
  predicate AllSingles(pieces: seq<string>) {
    forall p :: 0 <= p < |pieces| ==> |pieces[p]| == 1
  }

  /** Peeling the first piece off: the shape holds of `t` exactly when the first piece is one character and the shape holds of the rest. */
  lemma ShapeStep(t: string, i: nat, j: nat)
    requires i < j <= |t|
    requires forall k :: 0 <= k < i ==> !IsSep(t[k])
    requires forall k :: i <= k < j ==> IsSep(t[k])
    requires j < |t| ==> !IsSep(t[j])
    ensures InitialsShape(t) <==> i == 1 && InitialsShape(t[j..])
  {
    var r := t[j..];
    if InitialsShape(t) {
      assert !IsSep(t[0]);
      assert IsSep(t[0]) || IsSep(t[0 + 1]);
      assert i == 1;
      forall k | 0 <= k < |r| - 1 ensures IsSep(r[k]) || IsSep(r[k + 1]) {
        assert r[k] == t[j + k] && r[k + 1] == t[j + k + 1];
      }
    }
    if i == 1 && InitialsShape(r) {
      assert t[|t| - 1] == r[|r| - 1];
      forall k | 0 <= k < |t| - 1 ensures IsSep(t[k]) || IsSep(t[k + 1]) {
        if k >= j {
          assert t[k] == r[k - j] && t[k + 1] == r[k - j + 1];
        }
      }
    }
  }

  /** Every piece of `Split(t)` has length 1 exactly when `t` has the initials shape. */
  lemma {:induction false} SplitAllSingles(t: string)
    ensures AllSingles(Split(t)) <==> InitialsShape(t)
    decreases |t|
  {
    var i := NextSep(t, 0);
    if i == |t| {
      SingleWordShape(t);
    } else {
      var j := SkipSeps(t, i);
      SplitAllSingles(t[j..]);
      ShapeStep(t, i, j);
      SplitStepSingles(t, i, j);
    }
  }

  /** A string without separators is one piece, of length 1 exactly when it has the initials shape. */
  lemma SingleWordShape(t: string)
    requires forall k :: 0 <= k < |t| ==> !IsSep(t[k])
    ensures AllSingles(Split(t)) <==> InitialsShape(t)
  {
    assert Split(t) == [t];
    if |t| > 1 {
      assert !(IsSep(t[0]) || IsSep(t[0 + 1]));
      assert |Split(t)[0]| != 1;
    } else if |t| == 1 {
      assert InitialsShape(t);
      assert |Split(t)| == 1 && |Split(t)[0]| == 1;
    } else {
      assert |Split(t)[0]| != 1;
    }
  }

  /** Split at its first separator run `t[i..j]`, `t` has all pieces single exactly when the first piece is and the rest's are. */
  lemma SplitStepSingles(t: string, i: nat, j: nat)
    requires i == NextSep(t, 0) && i < |t| && j == SkipSeps(t, i)
    ensures AllSingles(Split(t)) <==> i == 1 && AllSingles(Split(t[j..]))
  {
    var pieces, rest := Split(t), Split(t[j..]);
    assert pieces == [t[..i]] + rest;
    assert |pieces[0]| == i;
    if AllSingles(pieces) {
      forall p | 0 <= p < |rest| ensures |rest[p]| == 1 {
        assert rest[p] == pieces[p + 1];
      }
    }
    if i == 1 && AllSingles(rest) {
      forall p | 0 <= p < |pieces| ensures |pieces[p]| == 1 {
        if p > 0 { assert pieces[p] == rest[p - 1]; }
      }
    }
  }

  /** The initials heuristic fires exactly when the trimmed name has the initials shape. */
  lemma InitialsIff(name: string)
    ensures LooksLikeInitials(name) <==> InitialsShape(Trim(name))
  {
    SplitAllSingles(Trim(name));
  }

  /** A blank name splits into one empty piece and is therefore not flagged. */
  lemma BlankIsNotInitials(name: string)
    requires IsBlank(name)
    ensures Split(Trim(name)) == [""]
    ensures !LooksLikeInitials(name)
  {
    assert Trim(name) == [];
    assert Split([]) == [[]];
    assert |Split(Trim(name))[0]| != 1;
  }

  /* ---------- validateLocationInput ---------- */

  /** What the query validator accepts, stated as one conjunction. */
  predicate AcceptableQuery(q: string) {
    && !IsBlank(q)
    && 2 <= |q| <= 100
    && forall i :: 0 <= i < |q| ==> AllowedChar(q[i])
  }

  /**
   * `validateLocationInput`: the blank check, then the two length checks on
   * the untrimmed query, then the character class; the first check that
   * fails gives the one message.
   */
  function ValidateLocationInput(query: string): (r: Check)
    ensures r.valid <==> AcceptableQuery(query)
    ensures r.valid <==> r.message == ""
    ensures IsBlank(query) ==> r.message == MSG_EMPTY
    ensures !IsBlank(query) && |query| < 2 ==> r.message == MSG_TOO_SHORT
    ensures !IsBlank(query) && |query| > 100 ==> r.message == MSG_TOO_LONG
    ensures !IsBlank(query) && 2 <= |query| <= 100 && !r.valid ==> r.message == MSG_BAD_CHARS
  {
    if IsBlank(query) then Check(false, MSG_EMPTY)
    else if |query| < 2 then Check(false, MSG_TOO_SHORT)
    else if |query| > 100 then Check(false, MSG_TOO_LONG)
    else if !(forall i :: 0 <= i < |query| ==> AllowedChar(query[i])) then Check(false, MSG_BAD_CHARS)
    else Check(true, "")
  }

  /** The length checks look at the untrimmed query: " a" passes them, and is valid. */
  lemma LengthIsUntrimmed()
    ensures ValidateLocationInput(" a").valid
    ensures !ValidateLocationInput("\t").valid && ValidateLocationInput("\t").message == MSG_EMPTY
  {
    assert !IsSpace(" a"[1]);
  }

  /* ---------- validateCoordinates ---------- */

  /** Both values finite and inside the closed latitude and longitude ranges. */
  predicate InRange(lat: Number, lon: Number) {
    && lat.Finite? && lon.Finite?
    && -90.0 <= lat.value <= 90.0
    && -180.0 <= lon.value <= 180.0
  }

  /**
   * `validateCoordinates`: non-finiteness first, then latitude, then
   * longitude; the bounds are inclusive.
   */
  function ValidateCoordinates(lat: Number, lon: Number): (r: Check)
    ensures r.valid <==> InRange(lat, lon)
    ensures r.valid <==> r.message == ""
    ensures !lat.Finite? || !lon.Finite? ==> r.message == MSG_NON_FINITE
    ensures lat.Finite? && lon.Finite? && !(-90.0 <= lat.value <= 90.0) ==> r.message == MSG_LATITUDE
    ensures lat.Finite? && lon.Finite? && -90.0 <= lat.value <= 90.0 && !r.valid ==> r.message == MSG_LONGITUDE
  {
    if !lat.Finite? || !lon.Finite? then Check(false, MSG_NON_FINITE)
    else if lat.value < -90.0 || lat.value > 90.0 then Check(false, MSG_LATITUDE)
    else if lon.value < -180.0 || lon.value > 180.0 then Check(false, MSG_LONGITUDE)
    else Check(true, "")
  }

  /** The examples of the coordinate check: 91 is out, a longitude of 200 is out, (45, 45) is in. */
  lemma CoordinateExamples()
    ensures ValidateCoordinates(Finite(91.0), Finite(0.0)).message == MSG_LATITUDE
    ensures ValidateCoordinates(Finite(45.0), Finite(200.0)).message == MSG_LONGITUDE
    ensures ValidateCoordinates(Finite(45.0), Finite(45.0)).valid
    ensures ValidateCoordinates(Finite(90.0), Finite(-180.0)).valid
  {
  }

  /* ---------- validateLocationData ---------- */

  /**
   * `validateLocationData`: collects the query message, then the coordinate
   * message, then the initials message; valid when nothing was collected.
   */
  function ValidateLocationData(name: string, lat: Number, lon: Number): (r: Report)
    ensures r.valid <==> r.errors == []
    ensures r.valid <==> AcceptableQuery(name) && InRange(lat, lon) && !InitialsShape(Trim(name))
    ensures |r.errors| <= 3
    ensures !AcceptableQuery(name) ==> r.errors[0] == ValidateLocationInput(name).message
    ensures InitialsShape(Trim(name)) ==> r.errors[|r.errors| - 1] == MSG_INITIALS
  {
    InitialsIff(name);
    var input := ValidateLocationInput(name);
    var coords := ValidateCoordinates(lat, lon);
    var errors :=
      (if !input.valid then [input.message] else [])
      + (if !coords.valid then [coords.message] else [])
      + (if LooksLikeInitials(name) then [MSG_INITIALS] else []);
    Report(|errors| == 0, errors)
  }

  /**
   * The coordinate message follows the query message, if any, and the
   * initials message is reported exactly for initials.
   */
  lemma LocationDataErrorOrder(name: string, lat: Number, lon: Number)
    ensures var r := ValidateLocationData(name, lat, lon);
      && (!InRange(lat, lon) ==>
            r.errors[if AcceptableQuery(name) then 0 else 1] == ValidateCoordinates(lat, lon).message)
      && (MSG_INITIALS in r.errors <==> InitialsShape(Trim(name)))
  {
    InitialsIff(name);
    var input := ValidateLocationInput(name);
    var coords := ValidateCoordinates(lat, lon);
    assert MSG_INITIALS != input.message && MSG_INITIALS != coords.message;
  }

  /** `join` begins with the first part and ends with the last. */
  lemma {:induction false} JoinEnds(parts: seq<string>, sep: string)
    requires parts != []
    ensures parts[0] <= Join(parts, sep)
    ensures var r, last := Join(parts, sep), parts[|parts| - 1]; |last| <= |r| && r[|r| - |last|..] == last
  {
    if |parts| > 1 {
      var init := parts[..|parts| - 1];
      JoinEnds(init, sep);
      assert init[0] == parts[0];
    }
  }

  /** `errors.join(sep)`. */
  function Join(parts: seq<string>, sep: string): (r: string)
    ensures parts == [] ==> r == ""
    ensures |parts| == 1 ==> r == parts[0]
  {
    if parts == [] then ""
    else if |parts| == 1 then parts[0]
    else Join(parts[..|parts| - 1], sep) + sep + parts[|parts| - 1]
  }
}
