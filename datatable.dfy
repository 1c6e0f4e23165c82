/**
 * The DataTables helpers of the jQuery pages: the status badge, the `{data}`
 * cell template, the row-action buttons, the date-range row predicate and the
 * dropdown column-search pattern. Date parsing and regex escaping are foreign
 * calls; the parser is a parameter, and the dropdown takes the escaped value.
 */
module DataTable {
  import opened Common

  // ===================== statusFormatter =====================

  const DefaultBadge := "badge-info"

  const StatusClasses: map<string, string> := map[
    "new" := "badge-info", "processing" := "badge-warning", "ready" := "badge-success",
    "completed" := "badge-success", "cancelled" := "badge-danger",
    "tersedia" := "badge-success", "habis" := "badge-danger"]

  const StatusTexts: map<string, string> := map[
    "new" := "Baru", "processing" := "Diproses", "ready" := "Siap",
    "completed" := "Selesai", "cancelled" := "Dibatalkan",
    "tersedia" := "Tersedia", "habis" := "Habis"]

  /** `statusClasses[status.toLowerCase()] || 'badge-info'` */
  function BadgeClass(status: string): (r: string)
    ensures ToLower(status) in StatusClasses ==> r == StatusClasses[ToLower(status)]
    ensures ToLower(status) !in StatusClasses ==> r == DefaultBadge
    ensures r in StatusClasses.Values || r == DefaultBadge
  {
    var key := ToLower(status);
    if key in StatusClasses then StatusClasses[key] else DefaultBadge
  }

  /** `statusText[status.toLowerCase()] || status`: an unknown status is shown as given, case kept. */
  function BadgeText(status: string): (r: string)
    ensures ToLower(status) in StatusTexts ==> r == StatusTexts[ToLower(status)]
    ensures ToLower(status) !in StatusTexts ==> r == status
  {
    var key := ToLower(status);
    if key in StatusTexts then StatusTexts[key] else status
  }

  /** `statusFormatter(status, row)` */
  function StatusFormatter(status: string): string
  {
    "<span class=\"badge " + BadgeClass(status) + "\">" + BadgeText(status) + "</span>"
  }

  /** Both tables list the same seven statuses. */
  lemma TablesAgreeOnKeys()
    ensures StatusClasses.Keys == StatusTexts.Keys
  {
  }


  /** The badge ignores the case of the status. */
  lemma BadgeIgnoresCase(status: string)
    requires ToLower(status) in StatusClasses
    ensures BadgeClass(status) == BadgeClass(ToLower(status))
    ensures BadgeText(status) == BadgeText(ToLower(status))
  {
    ToLowerIdempotent(status);
  }

  /** An unknown status gets the info badge and keeps its own spelling. */
  lemma UnknownStatusBadge(status: string)
    requires ToLower(status) !in StatusClasses
    ensures BadgeClass(status) == DefaultBadge && BadgeText(status) == status
    ensures StatusFormatter(status) == "<span class=\"badge " + DefaultBadge + "\">" + status + "</span>"
  {
    TablesAgreeOnKeys();
  }

  /** Every status the tables list, spelt as listed, gets its own colour and label. */
  lemma KnownStatusBadge(status: string)
    requires status in StatusClasses
    ensures BadgeClass(status) == StatusClasses[status] && BadgeText(status) == StatusTexts[status]
  {
    LowerCaseUnchanged(status);
    TablesAgreeOnKeys();
  }

  // ===================== cellFormatter =====================

  const Placeholder := "{data}"

  /** `s.replace(/pat/g, rep)` for a literal pattern: left to right, non-overlapping. */
  function ReplaceAll(s: string, pat: string, rep: string): string
    requires pat != []
    decreases |s|
  {
    if |s| < |pat| then s
    else if s[..|pat|] == pat then rep + ReplaceAll(s[|pat|..], pat, rep)
    else [s[0]] + ReplaceAll(s[1..], pat, rep)
  }

  /** Without an occurrence of the pattern, the text is unchanged. */
  lemma {:induction false} ReplaceWithoutMatch(s: string, pat: string, rep: string)
    requires pat != [] && !Includes(s, pat)
    ensures ReplaceAll(s, pat, rep) == s
    decreases |s|
  {
    if |s| >= |pat| {
      assert !OccursAt(s, pat, 0);
      assert forall i :: OccursAt(s[1..], pat, i) ==> OccursAt(s, pat, i + 1);
      ReplaceWithoutMatch(s[1..], pat, rep);
      assert s == [s[0]] + s[1..];
    }
  }

  /** Replacing the pattern by itself changes nothing. */
  lemma {:induction false} ReplaceBySelf(s: string, pat: string)
    requires pat != []
    ensures ReplaceAll(s, pat, pat) == s
    decreases |s|
  {
    if |s| >= |pat| {
      if s[..|pat|] == pat {
        ReplaceBySelf(s[|pat|..], pat);
        assert s == s[..|pat|] + s[|pat|..];
      } else {
        ReplaceBySelf(s[1..], pat);
        assert s == [s[0]] + s[1..];
      }
    }
  }

  /** A replacement as long as the pattern keeps the length. */
  lemma {:induction false} ReplaceKeepsLength(s: string, pat: string, rep: string)
    requires pat != [] && |rep| == |pat|
    ensures |ReplaceAll(s, pat, rep)| == |s|
    decreases |s|
  {
    if |s| >= |pat| {
      if s[..|pat|] == pat {
        ReplaceKeepsLength(s[|pat|..], pat, rep);
      } else {
        ReplaceKeepsLength(s[1..], pat, rep);
      }
    }
  }

  /** A string that does not start with the pattern's first character keeps that character. */
  lemma ReplaceSkipsChar(whole: string, pat: string, rep: string)
    requires pat != [] && |whole| >= |pat| && whole[0] != pat[0]
    ensures ReplaceAll(whole, pat, rep) == [whole[0]] + ReplaceAll(whole[1..], pat, rep)
  {
    assert whole[..|pat|][0] == whole[0];
  }

  /** One step of the copy: a leading character that cannot start the pattern is kept. */
  lemma ReplaceAfterStep(a: string, pat: string, s: string, rep: string)
    requires a != [] && pat != [] && a[0] != pat[0]
    requires ReplaceAll(a[1..] + pat + s, pat, rep) == a[1..] + rep + ReplaceAll(s, pat, rep)
    ensures ReplaceAll(a + pat + s, pat, rep) == a + rep + ReplaceAll(s, pat, rep)
  {
    var whole := a + pat + s;
    assert whole[0] == a[0] && whole[1..] == a[1..] + pat + s;
    ReplaceSkipsChar(whole, pat, rep);
    assert a + rep + ReplaceAll(s, pat, rep) == [a[0]] + (a[1..] + rep + ReplaceAll(s, pat, rep));
  }

  /** Text not containing the pattern's first character is copied, then the pattern is replaced. */
  lemma {:induction false} ReplaceAfterPlainText(a: string, pat: string, s: string, rep: string)
    requires pat != [] && pat[0] !in a
    ensures ReplaceAll(a + pat + s, pat, rep) == a + rep + ReplaceAll(s, pat, rep)
    decreases |a|
  {
    if a == [] {
      var whole := a + pat + s;
      assert whole == pat + s;
      assert whole[..|pat|] == pat;
      assert whole[|pat|..] == s;
    } else {
      assert a[0] in a;
      assert pat[0] !in a[1..];
      ReplaceAfterPlainText(a[1..], pat, s, rep);
      ReplaceAfterStep(a, pat, s, rep);
    }
  }

  /**
   * `cellFormatter(template)(data, type, row)`: in `display` mode every
   * `{data}` of the template becomes the cell's data; otherwise the data is
   * returned as it is.
   */
  function CellFormatter(template: string, data: string, isDisplay: bool): (r: string)
    ensures !isDisplay ==> r == data
    ensures isDisplay && !Includes(template, Placeholder) ==> r == template
  {
    if isDisplay then
      var r := ReplaceAll(template, Placeholder, data);
      assert !Includes(template, Placeholder) ==> r == template by {
        if !Includes(template, Placeholder) {
          ReplaceWithoutMatch(template, Placeholder, data);
        }
      }
      r
    else data
  }

  /** Text without the pattern's first character cannot contain the pattern. */
  lemma NoOccurrenceWithoutFirstChar(s: string, pat: string)
    requires pat != [] && pat[0] !in s
    ensures !Includes(s, pat)
  {
    forall i | 0 <= i <= |s| - |pat|
      ensures !OccursAt(s, pat, i)
    {
      assert s[i..i + |pat|][0] == s[i];
      assert s[i] in s;
    }
  }

  /** In display mode a template with one `{data}` is filled with the data. */
  lemma CellFillsPlaceholder(a: string, b: string, data: string)
    requires '{' !in a && '{' !in b
    ensures CellFormatter(a + Placeholder + b, data, true) == a + data + b
  {
    assert Placeholder[0] == '{';
    ReplaceAfterPlainText(a, Placeholder, b, data);
    NoOccurrenceWithoutFirstChar(b, Placeholder);
    ReplaceWithoutMatch(b, Placeholder, data);
  }

  /** `parts.join(sep)` */
  function JoinWith(parts: seq<string>, sep: string): string
  {
    if parts == [] then ""
    else if |parts| == 1 then parts[0]
    else parts[0] + sep + JoinWith(parts[1..], sep)
  }

  /** Pieces free of the pattern's first character, joined by the pattern, come back joined by the replacement. */
  lemma {:induction false} ReplaceJoined(parts: seq<string>, pat: string, rep: string)
    requires pat != [] && parts != []
    requires forall i :: 0 <= i < |parts| ==> pat[0] !in parts[i]
    ensures ReplaceAll(JoinWith(parts, pat), pat, rep) == JoinWith(parts, rep)
    decreases |parts|
  {
    if |parts| == 1 {
      NoOccurrenceWithoutFirstChar(parts[0], pat);
      ReplaceWithoutMatch(parts[0], pat, rep);
    } else {
      var rest := parts[1..];
      assert forall i :: 0 <= i < |rest| ==> rest[i] == parts[i + 1];
      ReplaceJoined(rest, pat, rep);
      ReplaceAfterPlainText(parts[0], pat, JoinWith(rest, pat), rep);
    }
  }

  /** In display mode every `{data}` of the template is replaced, not only the first. */
  lemma CellFillsEveryPlaceholder(parts: seq<string>, data: string)
    requires parts != []
    requires forall i :: 0 <= i < |parts| ==> '{' !in parts[i]
    ensures CellFormatter(JoinWith(parts, Placeholder), data, true) == JoinWith(parts, data)
  {
    assert Placeholder[0] == '{';
    ReplaceJoined(parts, Placeholder, data);
  }

  // ===================== actionFormatter =====================

  const DefaultButtonClass := "text-primary hover:text-primary-dark"

  /** An action descriptor; `btnClass` and `title` may be absent. */
  datatype Action = Action(name: string, icon: string, btnClass: Option<string>, title: Option<string>)

  /** The template up to the `data-id` attribute, with its exact line breaks and indentation. */
  function ButtonFront(action: Action): string
  {
    "<button \n        class=\"" + StringOr(action.btnClass, DefaultButtonClass) + " action-btn\" \n        data-action=\""
    + action.name + "\" \n        "
  }

  function IdAttribute(id: string): string
  {
    "data-id=\"" + id + "\""
  }

  /** The template after the `data-id` attribute. */
  function ButtonBack(action: Action): string
  {
    " \n        title=\"" + StringOr(action.title, action.name) + "\"\n      >\n        " + action.icon + "\n      </button>"
  }

  /** One button of the template. */
  function ButtonHtml(action: Action, id: string): string
  {
    ButtonFront(action) + IdAttribute(id) + ButtonBack(action)
  }

  /** The `actions.map(...)`: one button per action, in order. */
  function ButtonList(actions: seq<Action>, id: string): (r: seq<string>)
    ensures |r| == |actions|
    ensures forall i :: 0 <= i < |actions| ==> r[i] == ButtonHtml(actions[i], id)
  {
    seq(|actions|, i requires 0 <= i < |actions| => ButtonHtml(actions[i], id))
  }

  /** `parts.join('')` */
  function Concat(parts: seq<string>): string
  {
    if parts == [] then "" else parts[0] + Concat(parts[1..])
  }

  lemma {:induction false} ConcatAppend(p: seq<string>, q: seq<string>)
    ensures Concat(p + q) == Concat(p) + Concat(q)
    decreases |p|
  {
    if p == [] {
      assert p + q == q;
    } else {
      ConcatAppend(p[1..], q);
      assert (p + q)[1..] == p[1..] + q;
    }
  }

  /** `buttons.join('')` */
  function Buttons(actions: seq<Action>, id: string): string
  {
    Concat(ButtonList(actions, id))
  }

  const ButtonsOpen := "<div class=\"flex space-x-2\">"
  const ButtonsClose := "</div>"

  /** The id a row's buttons carry: `row.id || data`. */
  function RowId(rowId: Option<string>, data: string): (r: string)
    ensures Present(rowId) ==> r == rowId.value
    ensures !Present(rowId) ==> r == data
  {
    StringOr(rowId, data)
  }

  /** `actionFormatter(actions)(data, type, row)` */
  function ActionFormatter(actions: seq<Action>, data: string, rowId: Option<string>, isDisplay: bool): (r: string)
    ensures !isDisplay ==> r == ""
    ensures isDisplay ==> r == ButtonsOpen + Buttons(actions, RowId(rowId, data)) + ButtonsClose
  {
    if !isDisplay then "" else ButtonsOpen + Buttons(actions, RowId(rowId, data)) + ButtonsClose
  }

  /** The markup of a concatenation of action lists is the concatenation of their markups. */
  lemma ButtonsAppend(a: seq<Action>, b: seq<Action>, id: string)
    ensures Buttons(a + b, id) == Buttons(a, id) + Buttons(b, id)
  {
    assert ButtonList(a + b, id) == ButtonList(a, id) + ButtonList(b, id);
    ConcatAppend(ButtonList(a, id), ButtonList(b, id));
  }

  /** Every button carries the row's id in its `data-id` attribute. */
  lemma ButtonCarriesId(action: Action, id: string)
    ensures Includes(ButtonHtml(action, id), IdAttribute(id))
  {
    IncludesMiddle(ButtonFront(action), IdAttribute(id), ButtonBack(action));
  }

  // ===================== date-range predicate =====================

  /** A parsed `Date`: a time value, or `Invalid Date`, whose comparisons are all false. */
  datatype DateValue = Valid(time: int) | Invalid

  predicate OnOrAfter(d: DateValue, bound: DateValue)
  {
    d.Valid? && bound.Valid? && d.time >= bound.time
  }

  predicate OnOrBefore(d: DateValue, bound: DateValue)
  {
    d.Valid? && bound.Valid? && d.time <= bound.time
  }

  /**
   * The row predicate of `setupDateRangeFilter`. A bound is in force when its
   * input's value is truthy; an `Invalid Date` bound is still in force (a `Date`
   * object is truthy).
   */
  function DateInRange(minStr: Option<string>, maxStr: Option<string>, dateStr: string,
                       parse: string -> DateValue): (r: bool)
    ensures minStr == Some("") && maxStr == Some("") ==> r
    ensures Present(minStr) && Present(maxStr) ==>
              (r <==> OnOrAfter(parse(dateStr), parse(minStr.value)) && OnOrBefore(parse(dateStr), parse(maxStr.value)))
    ensures Present(minStr) && !Present(maxStr) ==> (r <==> OnOrAfter(parse(dateStr), parse(minStr.value)))
    ensures !Present(minStr) && Present(maxStr) ==> (r <==> OnOrBefore(parse(dateStr), parse(maxStr.value)))
    ensures !Present(minStr) && !Present(maxStr) ==> r
  {
    if minStr == Some("") && maxStr == Some("") then true
    else
      var date := parse(dateStr);
      if Present(minStr) && Present(maxStr) then
        OnOrAfter(date, parse(minStr.value)) && OnOrBefore(date, parse(maxStr.value))
      else if Present(minStr) then OnOrAfter(date, parse(minStr.value))
      else if Present(maxStr) then OnOrBefore(date, parse(maxStr.value))
      else true
  }

  /** With two valid bounds the range is inclusive at both ends. */
  lemma InclusiveRange(minStr: string, maxStr: string, dateStr: string, parse: string -> DateValue)
    requires minStr != "" && maxStr != ""
    requires parse(minStr).Valid? && parse(maxStr).Valid? && parse(dateStr).Valid?
    ensures DateInRange(Some(minStr), Some(maxStr), dateStr, parse)
            <==> parse(minStr).time <= parse(dateStr).time <= parse(maxStr).time
  {
  }

  /** A row whose date does not parse is hidden as soon as any bound is set. */
  lemma InvalidRowDateHidden(minStr: Option<string>, maxStr: Option<string>, dateStr: string, parse: string -> DateValue)
    requires parse(dateStr) == Invalid
    requires Present(minStr) || Present(maxStr)
    ensures !DateInRange(minStr, maxStr, dateStr, parse)
  {
  }

  /** A bound that does not parse hides every row. */
  lemma InvalidBoundHidesAll(minStr: string, maxStr: Option<string>, dateStr: string, parse: string -> DateValue)
    requires minStr != "" && parse(minStr) == Invalid
    ensures !DateInRange(Some(minStr), maxStr, dateStr, parse)
  {
  }

  // ===================== setupDropdownFilter =====================

  /** The column search for an (already escaped) dropdown value: exact match, or no filter. */
  function DropdownPattern(escaped: string): (r: string)
    ensures escaped == "" ==> r == ""
    ensures escaped != "" ==> |r| == |escaped| + 2 && r[0] == '^' && r[|r| - 1] == '$'
                              && r[1..|r| - 1] == escaped
  {
    if escaped != "" then "^" + escaped + "$" else ""
  }
}
