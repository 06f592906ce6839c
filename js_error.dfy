/**
 * `PyWV._parse_js_error`: turns the text of a scripting exception into the
 * four fields `name`, `line`, `column` and `message`. A JSON document is
 * decoded by `json.loads` (an oracle here); any other text falls back to one
 * regular-expression search per field, each defaulting independently.
 */
module JsError {
  import opened Wrappers
  import opened Text

  /** The structured diagnostic. */
  datatype ErrorInfo = ErrorInfo(name: string, line: int, column: int, message: string)

  /** What `json.loads` makes of the error text: not JSON (`JSONDecodeError`),
      an object carrying the four fields, or some other JSON value. */
  datatype JsonDecoding = NotJson | ErrorObject(info: ErrorInfo) | OtherJson

  const Quote: char := '\''
  const NameKey: string := "'name':"
  const LineKey: string := "'line':"
  const ColumnKey: string := "'column':"
  const MessageKey: string := "'message':"

  /** End of the longest run of characters satisfying `p` from index `i`. */
  function RunEnd(s: string, i: nat, p: char -> bool): (j: nat)
    requires i <= |s|
    ensures i <= j <= |s|
    ensures forall k :: i <= k < j ==> p(s[k])
    ensures j == |s| || !p(s[j])
    decreases |s| - i
  {
    if i < |s| && p(s[i]) then RunEnd(s, i + 1, p) else i
  }

  predicate NotQuote(c: char) {
    c != Quote
  }

  /** `'([^']+)'` matched at index `i`, giving the capture. */
  function QuotedAt(s: string, i: nat): Option<string>
    requires i <= |s|
  {
    if i < |s| && s[i] == Quote then
      var j := RunEnd(s, i + 1, NotQuote);
      if i + 1 < j < |s| then Some(s[i + 1..j]) else None
    else None
  }

  /** `(\d+)` matched at index `i`, giving the value `int()` reads from the capture. */
  function DigitsAt(s: string, i: nat): Option<nat>
    requires i <= |s|
  {
    var j := RunEnd(s, i, IsDigit);
    if j > i then Some(DigitsValue(s[i..j])) else None
  }

  /** The pattern `key\s*'([^']+)'` tried at index `i` (a greedy `\s*` never needs to back off here). */
  function TextMatchAt(s: string, key: string, i: int): Option<string> {
    if OccursAt(s, key, i) then QuotedAt(s, RunEnd(s, i + |key|, IsSpace)) else None
  }

  /** The pattern `key\s*(\d+)` tried at index `i`. */
  function NumberMatchAt(s: string, key: string, i: int): Option<nat> {
    if OccursAt(s, key, i) then DigitsAt(s, RunEnd(s, i + |key|, IsSpace)) else None
  }

  /** `re.search`: the first start index from `i` up to `n` at which `matchAt` succeeds. */
  function Search<T>(n: nat, matchAt: int -> Option<T>, i: nat): Option<T>
    requires i <= n
    decreases n - i
  {
    if matchAt(i).Some? || i == n then matchAt(i) else Search(n, matchAt, i + 1)
  }

  function SearchText(s: string, key: string): Option<string> {
    Search(|s|, i => TextMatchAt(s, key, i), 0)
  }

  function SearchNumber(s: string, key: string): Option<nat> {
    Search(|s|, i => NumberMatchAt(s, key, i), 0)
  }

  /** The regular-expression fallback, taken when `json.loads` fails. */
  function Fallback(s: string): ErrorInfo {
    var name := SearchText(s, NameKey);
    var line := SearchNumber(s, LineKey);
    var column := SearchNumber(s, ColumnKey);
    var message := SearchText(s, MessageKey);
    ErrorInfo(
      if name.Some? then name.value else "Unknown",
      if line.Some? then line.value else 0,
      if column.Some? then column.value else 0,
      if message.Some? then message.value else s)
  }

  /** `_parse_js_error(s)`, given what `json.loads(s)` does. `None` stands for a
      decoded JSON value that lacks the four fields, so that reading them raises. */
  function ParseJsError(s: string, json: JsonDecoding): (r: Option<ErrorInfo>)
    ensures json.NotJson? ==> r.Some? && r.value.line >= 0 && r.value.column >= 0
    ensures json.ErrorObject? ==> r == Some(json.info)
    ensures json.OtherJson? ==> r.None?
  {
    match json
    case NotJson => Some(Fallback(s))
    case ErrorObject(info) => Some(info)
    case OtherJson => None
  }

  /** The message of the re-raised exception: the script, then `name[line:column]`, then the message. */
  function ScriptErrorMessage(script: string, e: ErrorInfo): (r: string)
    ensures OccursAt(r, script, 13)
    ensures OccursAt(r, e.name + "[" + IntToString(e.line) + ":" + IntToString(e.column) + "]", 25 + |script|)
    ensures |e.message| <= |r| && r[|r| - |e.message|..] == e.message
  {
    var location := e.name + "[" + IntToString(e.line) + ":" + IntToString(e.column) + "]";
    var head := "\n\nscript -> '" + script + "',\nerror -> ";
    var r := head + location + "\n" + e.message;
    OccursBetween("\n\nscript -> '", script, "',\nerror -> ", location + "\n" + e.message);
    assert head + location + "\n" + e.message == head + (location + "\n" + e.message);
    OccursBetween(head, location, "\n", e.message);
    assert r[|r| - |e.message|..] == e.message;
    r
  }

  /** `Search` finds a match exactly when some index in range matches, and
      then it returns the capture of the leftmost one. */
  lemma {:induction false} SearchIsLeftmost<T>(n: nat, matchAt: int -> Option<T>, i: nat)
    requires i <= n
    ensures Search(n, matchAt, i).None? <==> forall k :: i <= k <= n ==> matchAt(k).None?
    ensures Search(n, matchAt, i).Some? ==>
      exists k :: i <= k <= n && matchAt(k) == Search(n, matchAt, i) &&
        forall j :: i <= j < k ==> matchAt(j).None?
    decreases n - i
  {
    if matchAt(i).None? && i < n {
      SearchIsLeftmost(n, matchAt, i + 1);
      if Search(n, matchAt, i).Some? {
        var k :| i + 1 <= k <= n && matchAt(k) == Search(n, matchAt, i + 1) &&
          forall j :: i + 1 <= j < k ==> matchAt(j).None?;
        assert forall j :: i <= j < k ==> matchAt(j).None?;
      }
    }
  }

  /** A key that does not occur leaves its field at the default. */
  lemma {:induction false} AbsentKeysDefault(s: string)
    ensures !Contains(s, NameKey) ==> Fallback(s).name == "Unknown"
    ensures !Contains(s, LineKey) ==> Fallback(s).line == 0
    ensures !Contains(s, ColumnKey) ==> Fallback(s).column == 0
    ensures !Contains(s, MessageKey) ==> Fallback(s).message == s
  {
    AbsentTextKey(s, NameKey);
    AbsentNumberKey(s, LineKey);
    AbsentNumberKey(s, ColumnKey);
    AbsentTextKey(s, MessageKey);
  }

  lemma AbsentTextKey(s: string, key: string)
    ensures !Contains(s, key) ==> SearchText(s, key).None?
  {
    SearchIsLeftmost(|s|, i => TextMatchAt(s, key, i), 0);
  }

  lemma AbsentNumberKey(s: string, key: string)
    ensures !Contains(s, key) ==> SearchNumber(s, key).None?
  {
    SearchIsLeftmost(|s|, i => NumberMatchAt(s, key, i), 0);
  }

  /** Text without a single quote (double-quoted JSON-like text among it) keeps every default. */
  lemma NoQuoteKeepsDefaults(s: string)
    requires Quote !in s
    ensures Fallback(s) == ErrorInfo("Unknown", 0, 0, s)
  {
    forall key: string, i | |key| > 0 && key[0] == Quote
      ensures !OccursAt(s, key, i)
    {
    }
    AbsentKeysDefault(s);
  }

  /** `re.search` passes over the start indexes where the pattern fails. */
  lemma {:induction false} SearchSkipsMisses<T>(n: nat, matchAt: int -> Option<T>, i: nat, m: nat)
    requires i <= m <= n
    requires forall k :: i <= k < m ==> matchAt(k).None?
    ensures Search(n, matchAt, i) == Search(n, matchAt, m)
    decreases m - i
  {
    if i < m {
      SearchSkipsMisses(n, matchAt, i + 1, m);
    }
  }

  /** The first occurrence of `key` in `pre + key` is the one after `pre`. */
  predicate KeyFirstAfter(pre: string, key: string) {
    forall i :: 0 <= i < |pre| ==> !OccursAt(pre + key, key, i)
  }

  /** Whatever follows `pre + key`, `key` does not start inside `pre`. */
  lemma KeyNotInPrefix(pre: string, key: string, tail: string)
    requires KeyFirstAfter(pre, key)
    ensures forall i :: 0 <= i < |pre| ==> !OccursAt(pre + key + tail, key, i)
  {
    var s := pre + key + tail;
    forall i | 0 <= i < |pre| && OccursAt(s, key, i)
      ensures false
    {
      assert s[i..i + |key|] == (pre + key)[i..i + |key|];
      assert OccursAt(pre + key, key, i);
    }
  }

  /** `key\s*'([^']+)'` matches at `p` when `key`, one space and a quoted `v` start there. */
  lemma TextMatchOfField(s: string, key: string, v: string, rest: string, p: nat)
    requires v != [] && Quote !in v
    requires p + |key| <= |s| && s[p..p + |key|] == key && s[p + |key|..] == " '" + v + "'" + rest
    ensures TextMatchAt(s, key, p) == Some(v)
  {
    var q := p + |key|;
    var tail := " '" + v + "'" + rest;
    assert s[q] == tail[0] == ' ' && s[q + 1] == tail[1] == Quote;
    assert RunEnd(s, q, IsSpace) == q + 1 by {
      assert IsSpace(s[q]) && !IsSpace(s[q + 1]);
      assert RunEnd(s, q + 1, IsSpace) == q + 1;
    }
    assert s[q + 2..q + 2 + |v|] == tail[2..|v| + 2] == v;
    assert s[q + 2 + |v|] == tail[|v| + 2] == Quote;
    RunEndStopsAt(s, q + 2, q + 2 + |v|, NotQuote);
  }

  /** `key\s*(\d+)` matches at `p` when `key`, one space and the digits of `n`
      start there and no digit follows. */
  lemma NumberMatchOfField(s: string, key: string, n: nat, p: nat)
    requires p + |key| + |NatToString(n)| + 1 <= |s| && s[p..p + |key|] == key
    requires s[p + |key|] == ' ' && s[p + |key| + 1..p + |key| + 1 + |NatToString(n)|] == NatToString(n)
    requires p + |key| + 1 + |NatToString(n)| == |s| || !IsDigit(s[p + |key| + 1 + |NatToString(n)|])
    ensures NumberMatchAt(s, key, p) == Some(n)
  {
    var q, d := p + |key|, NatToString(n);
    assert RunEnd(s, q, IsSpace) == q + 1 by {
      assert IsSpace(s[q]) && !IsSpace(s[q + 1]);
      assert RunEnd(s, q + 1, IsSpace) == q + 1;
    }
    RunEndStopsAt(s, q + 1, q + 1 + |d|, IsDigit);
    DigitsOfNatToString(n);
  }

  /** A text field written as `key 'v'` after text in which `key` does not
      start is read back as `v`, whatever follows it. */
  lemma TextFieldRoundTrip(pre: string, key: string, v: string, rest: string)
    requires KeyFirstAfter(pre, key) && v != [] && Quote !in v
    ensures SearchText(pre + key + " '" + v + "'" + rest, key) == Some(v)
  {
    var tail := " '" + v + "'" + rest;
    var s := pre + key + tail;
    assert pre + key + " '" + v + "'" + rest == s;
    KeyNotInPrefix(pre, key, tail);
    var p, q := |pre|, |pre| + |key|;
    SearchSkipsMisses(|s|, i => TextMatchAt(s, key, i), 0, p);
    assert TextMatchAt(s, key, p) == Some(v) by {
      assert s[p..q] == key && s[q..] == tail;
      TextMatchOfField(s, key, v, rest, p);
    }
  }

  /** A number written as `key n`, not followed by a digit, after text in
      which `key` does not start is read back as `n`. */
  lemma NumberFieldRoundTrip(pre: string, key: string, n: nat, rest: string)
    requires KeyFirstAfter(pre, key) && (rest == [] || !IsDigit(rest[0]))
    ensures SearchNumber(pre + key + " " + NatToString(n) + rest, key) == Some(n)
  {
    var d := NatToString(n);
    var tail := " " + d + rest;
    var s := pre + key + tail;
    assert pre + key + " " + d + rest == s;
    KeyNotInPrefix(pre, key, tail);
    var p, q := |pre|, |pre| + |key|;
    SearchSkipsMisses(|s|, i => NumberMatchAt(s, key, i), 0, p);
    assert NumberMatchAt(s, key, p) == Some(n) by {
      assert s[p..q] == key && s[q..] == tail;
      assert tail[1..|d| + 1] == d;
      NumberMatchOfField(s, key, n, p);
    }
  }

  /** A run that holds on `[i, j)` and stops at `j` ends at `j`. */
  lemma {:induction false} RunEndStopsAt(s: string, i: nat, j: nat, p: char -> bool)
    requires i <= j <= |s|
    requires forall k :: i <= k < j ==> p(s[k])
    requires j == |s| || !p(s[j])
    ensures RunEnd(s, i, p) == j
    decreases j - i
  {
    if i < j {
      RunEndStopsAt(s, i + 1, j, p);
    }
  }
}
