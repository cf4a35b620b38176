/**
 * The Google Sheets integration: the module-level client state (the cached spreadsheet
 * metadata and the cached maximum PNM id), the tab check, the PNM-id scan of column A and
 * the row builders. The Sheets API is outside the model: what it returns is a parameter and
 * what is sent to it is an output.
 */
module Sheet {
  import opened Wrappers
  import opened Json
  import JsString
  import Ddb
  import EventRoutes

  /** How long a scanned maximum id is trusted: 5 minutes, in milliseconds. */
  const IdCacheMs: int := 5 * 60 * 1000

  /**
   * `parseInt(s, 10)` on a trimmed string: an optional sign and the leading decimal digits;
   * no digits gives `None` (NaN).
   */
  function ParseInt(s: string): (r: Option<int>)
    ensures r.None? <==> JsString.DigitPrefix(SignFree(s)) == ""
  {
    var digits := JsString.DigitPrefix(SignFree(s));
    if digits == "" then None
    else
      var v: int := JsString.DigitsValue(digits);
      Some(if s[0] == '-' then -v else v)
  }

  /** The string after an optional leading sign. */
  function SignFree(s: string): (rest: string)
    ensures rest == s || (s != "" && rest == s[1..] && (s[0] == '-' || s[0] == '+'))
  {
    if |s| > 0 && (s[0] == '-' || s[0] == '+') then s[1..] else s
  }

  /** `parseIntSafe`: the integer `String(v).trim()` starts with, when it is finite. */
  function ParseIntSafe(v: Option<Json>): Option<int>
  {
    ParseInt(JsString.Trim(ToJsString(v)))
  }

  /** A cell that does not start with a sign or a digit, such as a header, parses to `None`. */
  lemma ParseIntRejects(s: string)
    requires s == "" || (!JsString.IsDigit(s[0]) && s[0] != '-' && s[0] != '+')
    ensures ParseInt(s).None?
  {
  }

  /** The header "PNM ID" of column A is not an id. */
  lemma HeaderIsNoId()
    ensures ParseIntSafe(Some(Str("PNM ID"))).None?
  {
    var s := "PNM ID";
    assert !JsString.IsWhitespace(s[0]) && !JsString.IsWhitespace(s[|s| - 1]);
    JsString.TrimStartOfClean(s);
    JsString.TrimEndOfClean(s);
    ParseIntRejects(s);
  }

  /** The rendering of an integer reads back as that integer. */
  lemma ParseIntOfRendering(n: int)
    ensures ParseInt(JsString.IntToString(n)) == Some(n)
  {
    var m: nat := if n < 0 then -n else n;
    var digits := JsString.NatToString(m);
    var s := JsString.IntToString(n);
    assert SignFree(s) == digits;
    assert JsString.DigitPrefix(digits) == digits;
    JsString.DigitsValueOfNatToString(m);
  }

  /** A number written in a cell reads back as itself. */
  lemma ParseIntSafeNumber(n: int)
    ensures ParseIntSafe(Some(Num(n))) == Some(n)
  {
    var s := JsString.IntToString(n);
    assert ToJsString(Some(Num(n))) == s;
    assert !JsString.IsWhitespace(s[0]) && !JsString.IsWhitespace(s[|s| - 1]);
    JsString.TrimStartOfClean(s);
    JsString.TrimEndOfClean(s);
    ParseIntOfRendering(n);
  }

  /** `r?.[0]`: the first cell of a row read from the sheet. */
  function FirstCell(r: Json): Option<Json>
  {
    match r
    case Arr(elems) => if |elems| > 0 then Some(elems[0]) else None
    case Str(s) => if |s| > 0 then Some(Str([s[0]])) else None
    case Obj(fields) => Field(fields, "0")
    case _ => None
  }

  /** The id a row of column A holds, if any. */
  function CellId(r: Json): Option<int>
  {
    ParseIntSafe(FirstCell(r))
  }

  /** The ids of column A, row by row. */
  function ColumnIds(rows: seq<Json>): (ids: seq<Option<int>>)
    ensures |ids| == |rows| && forall i :: 0 <= i < |rows| ==> ids[i] == CellId(rows[i])
  {
    seq(|rows|, i requires 0 <= i < |rows| => CellId(rows[i]))
  }

  /** The largest of the ids, or 0 when there is none larger: built from the last id backwards. */
  function MaxOf(ids: seq<Option<int>>): (m: int)
    ensures m >= 0
  {
    if ids == [] then 0
    else
      var m := MaxOf(ids[..|ids| - 1]);
      var n := ids[|ids| - 1];
      if n.Some? && n.value > m then n.value else m
  }

  /** The result of the scan of column A. */
  function MaxId(rows: seq<Json>): int
  {
    MaxOf(ColumnIds(rows))
  }

  /** The maximum bounds every id, and is 0 or one of them. */
  lemma {:induction false} MaxOfIsMax(ids: seq<Option<int>>)
    ensures forall i :: 0 <= i < |ids| && ids[i].Some? ==> ids[i].value <= MaxOf(ids)
    ensures MaxOf(ids) == 0 || Some(MaxOf(ids)) in ids
  {
    if ids != [] {
      var prefix := ids[..|ids| - 1];
      MaxOfIsMax(prefix);
      assert forall i :: 0 <= i < |prefix| ==> prefix[i] == ids[i];
      if MaxOf(ids) != MaxOf(prefix) {
        assert ids[|ids| - 1] == Some(MaxOf(ids));
      } else if MaxOf(ids) != 0 {
        assert Some(MaxOf(prefix)) in prefix;
      }
    }
  }

  /** The scan's result bounds every id in the column, and is 0 or the id of some row. */
  lemma MaxIdIsMax(rows: seq<Json>)
    ensures forall i :: 0 <= i < |rows| && CellId(rows[i]).Some? ==> CellId(rows[i]).value <= MaxId(rows)
    ensures MaxId(rows) == 0 || exists i :: 0 <= i < |rows| && CellId(rows[i]) == Some(MaxId(rows))
  {
    var ids := ColumnIds(rows);
    MaxOfIsMax(ids);
    if MaxOf(ids) != 0 {
      var i :| 0 <= i < |ids| && ids[i] == Some(MaxOf(ids));
      assert CellId(rows[i]) == Some(MaxId(rows));
    }
  }

  /** Rows whose first cell is not an id (headers, blanks) leave the result as it was. */
  lemma MaxIdSkipsNonNumeric(rows: seq<Json>, r: Json)
    requires CellId(r).None?
    ensures MaxId(rows + [r]) == MaxId(rows)
  {
    var ids := ColumnIds(rows + [r]);
    assert ids[..|rows|] == ColumnIds(rows);
  }

  /** The scan of column A: `maxId` starts at 0 and grows to every larger id found. */
  method ScanMaxId(rows: seq<Json>) returns (maxId: int)
    ensures maxId == MaxId(rows)
  {
    ghost var ids := ColumnIds(rows);
    maxId := 0;
    var i := 0;
    while i < |rows|
      invariant 0 <= i <= |rows|
      invariant maxId == MaxOf(ids[..i])
    {
      assert ids[..i + 1][..i] == ids[..i];
      var n := ParseIntSafe(FirstCell(rows[i]));
      assert n == ids[i];
      if n.Some? && n.value > maxId {
        maxId := n.value;
      }
      i := i + 1;
    }
    assert ids[..i] == ids;
  }

  /** The cached maximum is fresh: it was scanned less than `IdCacheMs` before `now`. */
  predicate Cached(maxId: Option<int>, checkedAt: int, now: int) {
    maxId.Some? && now - checkedAt < IdCacheMs
  }

  /** The module-level state of the integration. */
  class SheetsClient {
    /** `_meta`: the tab titles of the spreadsheet as last fetched, `None` before the first fetch. */
    var meta: Option<seq<string>>
    /** `_pnmMaxId`. */
    var pnmMaxId: Option<int>
    /** `_pnmMaxIdCheckedAt`. */
    var pnmCheckedAt: int

    constructor()
      ensures meta.None? && pnmMaxId.None? && pnmCheckedAt == 0
    {
      meta := None;
      pnmMaxId := None;
      pnmCheckedAt := 0;
    }

    /** The titles `ensureSheet` checks: the cached ones, or `fetched` on the first call. */
    function Known(fetched: seq<string>): seq<string>
      reads this
    {
      if meta.Some? then meta.value else fetched
    }

    /**
     * `ensureSheet`: a tab is added only when no known tab has the title; the metadata is
     * then fetched again (`refetched`). `added` says whether the add request was sent.
     */
    method EnsureSheet(title: string, fetched: seq<string>, refetched: seq<string>) returns (added: bool)
      modifies this
      ensures added <==> title !in old(Known(fetched))
      ensures meta == Some(if added then refetched else old(Known(fetched)))
      ensures pnmMaxId == old(pnmMaxId) && pnmCheckedAt == old(pnmCheckedAt)
    {
      if meta.None? {
        meta := Some(fetched);
      }
      added := title !in meta.value;
      if added {
        meta := Some(refetched);
      }
    }

    /**
     * `getNextPnmId`: within `IdCacheMs` of the last scan, the cached maximum plus one with no
     * read; otherwise the tab is ensured, column A (`rows`) is scanned, and the new maximum
     * and time are cached.
     */
    method NextPnmId(now: int, tab: string, fetched: seq<string>, refetched: seq<string>, rows: seq<Json>)
        returns (id: int, scanned: bool)
      modifies this
      ensures Cached(old(pnmMaxId), old(pnmCheckedAt), now) ==>
        && !scanned && id == old(pnmMaxId).value + 1
        && meta == old(meta) && pnmMaxId == old(pnmMaxId) && pnmCheckedAt == old(pnmCheckedAt)
      ensures !Cached(old(pnmMaxId), old(pnmCheckedAt), now) ==>
        && scanned && id == MaxId(rows) + 1
        && pnmMaxId == Some(MaxId(rows)) && pnmCheckedAt == now
        && meta == Some(if tab in old(Known(fetched)) then old(Known(fetched)) else refetched)
    {
      if pnmMaxId.Some? && now - pnmCheckedAt < IdCacheMs {
        return pnmMaxId.value + 1, false;
      }
      var _ := EnsureSheet(tab, fetched, refetched);
      var maxId := ScanMaxId(rows);
      pnmMaxId := Some(maxId);
      pnmCheckedAt := now;
      id, scanned := maxId + 1, true;
    }

    /**
     * The part of `appendToPNMsIfMissing` after the duplicate check: ensure the tab, take the
     * next id, send the row, and raise the cached maximum to the id. Returns the id and the
     * row sent. This code follows the call to the undefined `getPnmEmailSet`, so it never runs
     * as the module stands; it is kept as the use of the id cache the module was written for.
     */
    method AppendNew(name: Option<Json>, email: Option<Json>, year: Option<Json>, photoUrl: Option<Json>,
                     now: int, tab: string, fetched: seq<string>, refetched: seq<string>, rows: seq<Json>)
        returns (id: int, row: seq<Json>)
      modifies this
      ensures pnmMaxId == Some(id)
      ensures pnmCheckedAt == (if Cached(old(pnmMaxId), old(pnmCheckedAt), now) then old(pnmCheckedAt) else now)
      ensures meta == Some(if tab in old(Known(fetched)) then old(Known(fetched)) else refetched)
      ensures Cached(old(pnmMaxId), old(pnmCheckedAt), now) ==> id == old(pnmMaxId).value + 1
      ensures !Cached(old(pnmMaxId), old(pnmCheckedAt), now) ==> id == MaxId(rows) + 1
      ensures row == [Num(id), Or(name, Some(Str(""))).value, Or(email, Some(Str(""))).value,
                      Str(ToJsString(Or(year, Some(Str(""))))), Or(photoUrl, Some(Str(""))).value]
    {
      var _ := EnsureSheet(tab, fetched, refetched);
      var scanned;
      id, scanned := NextPnmId(now, tab, meta.value, refetched, rows);
      row := [Num(id), Or(name, Some(Str(""))).value, Or(email, Some(Str(""))).value,
              Str(ToJsString(Or(year, Some(Str(""))))), Or(photoUrl, Some(Str(""))).value];
      var prior := if pnmMaxId.Some? then pnmMaxId.value else 0;
      pnmMaxId := Some(if prior > id then prior else id);
    }
  }

  /** `String(email || "").trim().toLowerCase()`: the key a PNM is deduplicated by. */
  function PnmKey(email: Option<Json>): string
  {
    JsString.ToLower(JsString.Trim(ToJsString(Or(email, Some(Str(""))))))
  }

  /**
   * `appendToPNMsIfMissing`: a blank email is skipped with reason "no email" before any
   * request. Otherwise it calls `getPnmEmailSet`, which the module does not define, so it
   * throws a ReferenceError and nothing after it runs.
   */
  function AppendToPnmsIfMissing(email: Option<Json>): (r: Result<Json>)
    ensures PnmKey(email) == "" ==>
      r == Ok(Obj(map["skipped" := Bool(true), "reason" := Str("no email")]))
    ensures PnmKey(email) != "" ==> r.Err?
  {
    if PnmKey(email) == "" then Ok(Obj(map["skipped" := Bool(true), "reason" := Str("no email")]))
    else Err("ReferenceError: getPnmEmailSet is not defined")
  }

  /** A missing, empty or blank email is skipped. */
  lemma BlankEmailSkipped(email: Option<Json>)
    requires !IsTruthy(email) || (email.value.Str? && forall i :: 0 <= i < |email.value.s| ==> JsString.IsWhitespace(email.value.s[i]))
    ensures AppendToPnmsIfMissing(email).Ok?
  {
    if IsTruthy(email) {
      assert JsString.Trim(email.value.s) == "";
    }
  }

  /**
   * `appendPnmRowWithId`'s row: id, name, lowercased email, year as a string and photo, each
   * missing value as "". A truthy email that is not a string has no `toLowerCase` and throws.
   */
  function PnmRowWithId(id: Json, name: Option<Json>, email: Option<Json>, year: Option<Json>, photoUrl: Option<Json>)
    : (r: Result<seq<Json>>)
    ensures r.Ok? <==> Or(email, Some(Str(""))).value.Str?
    ensures r.Ok? ==> |r.value| == 5 && r.value[0] == id
    ensures r.Ok? ==> r.value[2] == Str(JsString.ToLower(Or(email, Some(Str(""))).value.s))
    ensures r.Ok? ==> r.value[3].Str? && r.value[1] != Null && r.value[4] != Null
  {
    var e := Or(email, Some(Str(""))).value;
    if !e.Str? then Err("TypeError: email.toLowerCase is not a function")
    else Ok([id, Or(name, Some(Str(""))).value, Str(JsString.ToLower(e.s)),
             Str(ToJsString(Or(year, Some(Str(""))))), Or(photoUrl, Some(Str(""))).value])
  }

  /**
   * The row a first check-in sends for its new PNM id always builds, and its email cell is
   * the claimed email unchanged: that email is lowercased already.
   */
  lemma CheckInRow(user: Ddb.Item, id: int, email: string)
    requires EventRoutes.PnmEmail(user) == Some(email)
    ensures var e := EventRoutes.PnmRow(user, id, email);
      var r := PnmRowWithId(Num(e.id), Some(Str(e.name)), Some(Str(e.email)), Some(e.year), Some(e.photoUrl));
      r.Ok? && r.value[2] == Str(email)
  {
    var raw := Or(Field(user, "email"), Some(Str(""))).value.s;
    JsString.ToLowerIdempotent(raw);
    var e := EventRoutes.PnmRow(user, id, email);
    LowerEmailCell(Num(e.id), Some(Str(e.name)), email, Some(e.year), Some(e.photoUrl));
  }

  /** A lowercase email goes into the row as it is. */
  lemma LowerEmailCell(id: Json, name: Option<Json>, email: string, year: Option<Json>, photoUrl: Option<Json>)
    requires JsString.ToLower(email) == email
    ensures var r := PnmRowWithId(id, name, Some(Str(email)), year, photoUrl);
      r.Ok? && r.value[2] == Str(email)
  {
  }

  /** `appendEventSigninRow`'s row: name and email as given, a missing year or photo as "". */
  function SigninRow(name: Option<Json>, email: Option<Json>, year: Option<Json>, photoUrl: Option<Json>)
    : (row: seq<Option<Json>>)
    ensures |row| == 4 && row[0] == name && row[1] == email
    ensures IsTruthy(year) ==> row[2] == year
    ensures !IsTruthy(year) ==> row[2] == Some(Str(""))
    ensures !IsTruthy(photoUrl) ==> row[3] == Some(Str(""))
  {
    [name, email, Or(year, Some(Str(""))), Or(photoUrl, Some(Str("")))]
  }

  /**
   * `appendApplicationRow`'s row: names, email and class year as given, a missing photo,
   * resume or answer as "".
   */
  function ApplicationRow(app: Option<Json>): (row: seq<Option<Json>>)
    ensures |row| == 7
    ensures row[..4] == [Get(app, "firstname"), Get(app, "lastname"), Get(app, "email"), Get(app, "classYear")]
    ensures forall i :: 4 <= i < 7 ==> IsTruthy(row[i]) || row[i] == Some(Str(""))
  {
    [Get(app, "firstname"), Get(app, "lastname"), Get(app, "email"), Get(app, "classYear"),
     Or(Get(app, "photoUrl"), Some(Str(""))), Or(Get(app, "resumeUrl"), Some(Str(""))),
     Or(Get(app, "opt1"), Some(Str("")))]
  }

  /**
   * The append of a sign-in or application row: skipped (`None`) when no spreadsheet id is
   * configured, otherwise the row is sent.
   */
  function AppendIfConfigured(spreadsheetId: Option<string>, row: seq<Option<Json>>): (sent: Option<seq<Option<Json>>>)
    ensures sent.Some? <==> spreadsheetId.Some? && spreadsheetId.value != ""
    ensures sent.Some? ==> sent.value == row
  {
    if spreadsheetId.Some? && spreadsheetId.value != "" then Some(row) else None
  }
}
