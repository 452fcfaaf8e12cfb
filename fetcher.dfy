/** The string handling of the history fetcher: unwrapping the JSONP answer
    of the lottery site, checking the decoded payload, normalising each
    draw's winning numbers into the CSV field the predictor later parses,
    and ordering the collected rows newest issue first. */
module Fetcher {
  import opened Common
  import opened Text
  import Ranking

  // ---------------------------------------------------------------------
  // The JSONP envelope and the payload check.

  /** The text strictly between the first `(` and the last `)`; without
      either parenthesis `str.index`/`str.rindex` raise `ValueError`. */
  function UnwrapJsonp(text: string): (r: Result<string>)
    ensures r.Ok? <==> '(' in text && ')' in text
    ensures r.Err? ==> r.error == ValueError
  {
    match (IndexOf(text, '('), LastIndexOf(text, ')'))
    case (Some(i), Some(j)) => Ok(Slice(text, i + 1, j))
    case _ => Err(ValueError)
  }

  /** The unwrapped body is the slice between the first `(` and the last `)`,
      and empty when that `)` does not come after that `(`. */
  lemma UnwrapJsonpSlice(text: string)
    requires '(' in text && ')' in text
    ensures exists i, j ::
      (&& 0 <= i < |text| && 0 <= j < |text|
       && text[i] == '(' && '(' !in text[..i]
       && text[j] == ')' && ')' !in text[j + 1..]
       && UnwrapJsonp(text) == Ok(if i < j then text[i + 1..j] else ""))
  {
    var i := IndexOf(text, '(').value;
    var j := LastIndexOf(text, ')').value;
    assert UnwrapJsonp(text) == Ok(if i < j then text[i + 1..j] else "");
  }

  /** A callback name without `(` wrapped around any body unwraps to that
      body, whatever parentheses the body holds. */
  lemma UnwrapWrapped(callback: string, body: string)
    requires '(' !in callback
    ensures UnwrapJsonp(callback + "(" + body + ")") == Ok(body)
  {
    var text := callback + "(" + body + ")";
    var n := |callback|;
    assert text[n] == '(';
    assert text[|text| - 1] == ')';
    assert text[..n] == callback;
    var i := IndexOf(text, '(').value;
    var j := LastIndexOf(text, ')').value;
    FirstIndexAt(text, '(', i, n);
    assert j == |text| - 1;
    assert text[n + 1..|text| - 1] == body;
  }

  /** The first occurrence is the one not preceded by another. */
  lemma FirstIndexAt(s: string, c: char, i: int, m: int)
    requires 0 <= i < |s| && s[i] == c && c !in s[..i]
    requires 0 <= m < |s| && s[m] == c && c !in s[..m]
    ensures i == m
  {
    assert forall t :: 0 <= t < m ==> s[t] == s[..m][t];
    assert forall t :: 0 <= t < i ==> s[t] == s[..i][t];
  }

  /** The keys `fetch_kl8_data` requires of the decoded payload. */
  predicate WellShaped<V>(data: map<string, V>) {
    "data" in data && "pages" in data && "total" in data
  }

  /** One page request after the response arrived: anything but status 200,
      a missing parenthesis, a body `json.loads` rejects (its
      `JSONDecodeError` is a `ValueError`), a payload without `data`,
      `pages` and `total`, or a `data` entry `len()` refuses (its
      `TypeError` reaches the outer handler) all answer `None`. `sized`
      says which loaded values `len()` accepts. */
  function FetchPage<V>(status: int, text: string, loads: string -> Result<map<string, V>>, sized: V -> bool): Option<map<string, V>> {
    if status != 200 then None
    else
      match UnwrapJsonp(text)
      case Err(_) => None
      case Ok(body) =>
        match loads(body)
        case Err(_) => None
        case Ok(data) => if WellShaped(data) && sized(data["data"]) then Some(data) else None
  }

  /** The page is answered exactly when every step succeeds, and then with
      the decoded payload unchanged. */
  lemma FetchPageMeaning<V>(status: int, text: string, loads: string -> Result<map<string, V>>, sized: V -> bool)
    ensures FetchPage(status, text, loads, sized).Some? <==>
      status == 200 && UnwrapJsonp(text).Ok? && loads(UnwrapJsonp(text).value).Ok?
      && WellShaped(loads(UnwrapJsonp(text).value).value)
      && sized(loads(UnwrapJsonp(text).value).value["data"])
    ensures FetchPage(status, text, loads, sized).Some? ==>
      FetchPage(status, text, loads, sized).value == loads(UnwrapJsonp(text).value).value
  {
  }

  /** A well-formed JSONP answer yields its payload. */
  lemma FetchWrapped<V>(callback: string, body: string, loads: string -> Result<map<string, V>>, sized: V -> bool, data: map<string, V>)
    requires '(' !in callback
    requires loads(body) == Ok(data) && WellShaped(data) && sized(data["data"])
    ensures FetchPage(200, callback + "(" + body + ")", loads, sized) == Some(data)
  {
    UnwrapWrapped(callback, body);
  }

  // ---------------------------------------------------------------------
  // The winning-numbers field.

  function Strs(ns: seq<int>): (r: seq<string>)
    ensures |r| == |ns|
  {
    seq(|ns|, i requires 0 <= i < |ns| => IntToString(ns[i]))
  }

  /** `','.join(map(str, sorted(int(n) for n in field.strip().split())))`. */
  function NormaliseNumbers(field: string): Result<string> {
    match ParseAll(Words(Strip(field)))
    case Err(e) => Err(e)
    case Ok(ns) => Ok(Join(Strs(SortInts(ns)), ','))
  }

  /** The predictor's reading of the field: `[int(n) for n in x.split(',')]`. */
  function ParseNumberField(x: string): Result<seq<int>> {
    ParseAll(SplitOn(x, ','))
  }

  /** Converting a list to strings and back gives the list. */
  lemma ParseAllStrs(ns: seq<int>)
    ensures ParseAll(Strs(ns)) == Ok(ns)
  {
    var ts := Strs(ns);
    forall i | 0 <= i < |ns| ensures ParseInt(ts[i]) == Ok(ns[i]) {
      ParseIntToString(ns[i]);
    }
    var r := ParseAll(ts);
    assert forall i :: 0 <= i < |ts| ==> ParseInt(ts[i]).Ok?;
    assert r.Ok?;
    assert r.value == ns;
  }

  /** The field is written exactly when every whitespace-separated token is
      an integer, and the predictor's parser then reads back those integers
      in ascending order, the same multiset as the tokens. A field without
      tokens becomes the empty string, which the parser rejects. */
  lemma NormaliseRoundTrip(field: string)
    ensures NormaliseNumbers(field).Ok? <==>
      forall i :: 0 <= i < |Words(field)| ==> ParseInt(Words(field)[i]).Ok?
    ensures NormaliseNumbers(field).Ok? && Words(field) != [] ==>
      var ns := ParseAll(Words(field)).value;
      var back := ParseNumberField(NormaliseNumbers(field).value);
      back.Ok? && back.value == SortInts(ns)
      && NonDecreasing(back.value) && multiset(back.value) == multiset(ns)
    ensures Words(field) == [] ==> NormaliseNumbers(field) == Ok("") && ParseNumberField("").Err?
  {
    StripWords(field);
    match ParseAll(Words(field)) {
      case Err(_) =>
      case Ok(ns) =>
        if ns != [] {
          var sorted := SortInts(ns);
          var pieces := Strs(sorted);
          forall i | 0 <= i < |pieces| ensures ',' !in pieces[i] {
            IntToStringNoComma(sorted[i]);
          }
          SplitJoin(pieces, ',');
          ParseAllStrs(sorted);
        }
    }
    if Words(field) == [] {
      assert SplitOn("", ',') == [""];
      assert ParseInt("").Err?;
    }
  }

  /** `numbers.sort()`: an in-place insertion sort that inserts each element,
      right to left, into the already sorted tail. */
  method SortInPlace(a: array<int>)
    modifies a
    ensures a[..] == SortInts(old(a[..]))
  {
    var i := a.Length;
    while i > 0
      invariant 0 <= i <= a.Length
      invariant a[..i] == old(a[..])[..i]
      invariant a[i..] == SortInts(old(a[..])[i..])
    {
      i := i - 1;
      ghost var tail := old(a[..])[i..];
      assert tail[0] == a[i] && tail[1..] == old(a[..])[i + 1..];
      InsertIntoTail(a, i);
      SortIntsStep(tail);
    }
    assert a[..] == a[0..];
  }

  lemma SortIntsStep(s: seq<int>)
    requires s != []
    ensures SortInts(s) == InsertAscending(s[0], SortInts(s[1..]))
  {
  }

  method InsertIntoTail(a: array<int>, i: int)
    requires 0 <= i < a.Length
    modifies a
    ensures a[..i] == old(a[..i])
    ensures a[i..] == InsertAscending(old(a[i]), old(a[i + 1..]))
  {
    var x := a[i];
    var j := i;
    while j + 1 < a.Length && a[j + 1] < x
      invariant i <= j < a.Length
      invariant forall t :: 0 <= t < i ==> a[t] == old(a[t])
      invariant forall t :: i <= t < j ==> a[t] == old(a[t + 1])
      invariant forall t :: j < t < a.Length ==> a[t] == old(a[t])
      invariant forall t :: i < t <= j ==> old(a[t]) < x
    {
      a[j] := a[j + 1];
      j := j + 1;
    }
    a[j] := x;
    InsertedTail(old(a[..]), a[..], i, j);
  }

  /** The array after the shift loop and the final store, as sequences. */
  lemma InsertedTail(pre: seq<int>, post: seq<int>, i: int, j: int)
    requires 0 <= i <= j < |pre| == |post|
    requires forall t :: 0 <= t < i ==> post[t] == pre[t]
    requires forall t :: i <= t < j ==> post[t] == pre[t + 1]
    requires forall t :: j < t < |pre| ==> post[t] == pre[t]
    requires forall t :: i < t <= j ==> pre[t] < pre[i]
    requires post[j] == pre[i]
    requires j + 1 == |pre| || pre[i] <= pre[j + 1]
    ensures post[..i] == pre[..i]
    ensures post[i..] == InsertAscending(pre[i], pre[i + 1..])
  {
    var s := pre[i + 1..];
    var k := j - i;
    InsertAscendingAt(pre[i], s, k);
    assert post[i..] == s[..k] + [pre[i]] + s[k..];
  }

  /** The insertion lands after the elements smaller than `x`. */
  lemma {:induction false} InsertAscendingAt(x: int, s: seq<int>, k: int)
    requires 0 <= k <= |s|
    requires forall t :: 0 <= t < k ==> s[t] < x
    requires k == |s| || x <= s[k]
    ensures InsertAscending(x, s) == s[..k] + [x] + s[k..]
    decreases k
  {
    if k > 0 {
      InsertAscendingAt(x, s[1..], k - 1);
      assert s[..k] == [s[0]] + s[1..][..k - 1];
      assert s[1..][k - 1..] == s[k..];
    }
  }

  // ---------------------------------------------------------------------
  // One result page.

  /** A CSV row: issue, opening date, normalised numbers. */
  datatype Row = Row(issue: string, date: string, numbers: string)

  /** A result item as decoded from the payload, with the fields it carries. */
  type Item = map<string, string>

  /** One item of the page: a missing field raises `KeyError`, a malformed
      number `ValueError`. */
  function NormaliseItem(item: Item): Result<Row> {
    if "issue" !in item || "openTime" !in item || "frontWinningNum" !in item then Err(KeyError)
    else
      match NormaliseNumbers(item["frontWinningNum"])
      case Err(e) => Err(e)
      case Ok(numbers) => Ok(Row(item["issue"], item["openTime"], numbers))
  }

  /** The body of the item loop, with the number list sorted in place. */
  method ProcessItem(item: Item) returns (r: Result<Row>)
    ensures r == NormaliseItem(item)
  {
    if "issue" !in item || "openTime" !in item || "frontWinningNum" !in item {
      return Err(KeyError);
    }
    var parsed := ParseAll(Words(Strip(item["frontWinningNum"])));
    if parsed.Err? {
      return Err(parsed.error);
    }
    var ns := parsed.value;
    var a := new int[|ns|];
    forall k | 0 <= k < |ns| {
      a[k] := ns[k];
    }
    assert a[..] == ns;
    SortInPlace(a);
    r := Ok(Row(item["issue"], item["openTime"], Join(Strs(a[..]), ',')));
  }

  /** The item loop of one page: each item's row is appended to the rows
      collected so far until an item fails, which ends the page. */
  method ProcessPage(allData: seq<Row>, items: seq<Item>) returns (rows: seq<Row>, ok: bool)
    ensures |allData| <= |rows| <= |allData| + |items|
    ensures rows[..|allData|] == allData
    ensures forall k :: 0 <= k < |rows| - |allData| ==> NormaliseItem(items[k]) == Ok(rows[|allData| + k])
    ensures ok <==> |rows| == |allData| + |items|
    ensures !ok ==> NormaliseItem(items[|rows| - |allData|]).Err?
  {
    rows := allData;
    var i := 0;
    while i < |items|
      invariant 0 <= i <= |items|
      invariant |rows| == |allData| + i
      invariant rows[..|allData|] == allData
      invariant forall k :: 0 <= k < i ==> NormaliseItem(items[k]) == Ok(rows[|allData| + k])
    {
      var row := ProcessItem(items[i]);
      if row.Err? {
        return rows, false;
      }
      rows := rows + [row.value];
      i := i + 1;
    }
    ok := true;
  }

  // ---------------------------------------------------------------------
  // `all_data.sort(key=lambda x: int(x[0]), reverse=True)`.

  /** The issue number of a row, 0 where its issue is not an integer. */
  function IssueOf(row: Row): int {
    match ParseInt(row.issue)
    case Ok(n) => n
    case Err(_) => 0
  }

  /** The rows paired with their sort key; `ValueError` when an issue is not
      an integer, as Python computes every key before sorting. */
  function Keyed(rows: seq<Row>): (r: Result<seq<(Row, real)>>)
    ensures r.Ok? ==> |r.value| == |rows| && forall i :: 0 <= i < |rows| ==> r.value[i] == (rows[i], IssueOf(rows[i]) as real)
    ensures r.Ok? <==> forall i :: 0 <= i < |rows| ==> ParseInt(rows[i].issue).Ok?
    ensures r.Err? ==> r.error == ValueError
  {
    var issues := seq(|rows|, i requires 0 <= i < |rows| => rows[i].issue);
    assert forall i :: 0 <= i < |rows| ==> issues[i] == rows[i].issue;
    match ParseAll(issues)
    case Err(e) => Err(e)
    case Ok(_) => Ok(seq(|rows|, i requires 0 <= i < |rows| => (rows[i], IssueOf(rows[i]) as real)))
  }

  function Firsts<T>(s: seq<(T, real)>): (r: seq<T>)
    ensures |r| == |s|
  {
    seq(|s|, i requires 0 <= i < |s| => s[i].0)
  }

  /** The sorted list of rows: newest issue first, stable among equal issues. */
  function SortByIssue(rows: seq<Row>): Result<seq<Row>> {
    match Keyed(rows)
    case Err(e) => Err(e)
    case Ok(pairs) => Ok(Firsts(Ranking.SortDesc(pairs)))
  }

  /** The rows of `s` with issue `k`, in their order in `s`. */
  function WithIssue(s: seq<Row>, k: int): seq<Row>
    decreases |s|
  {
    if s == [] then [] else (if IssueOf(s[0]) == k then [s[0]] else []) + WithIssue(s[1..], k)
  }

  /** The sort raises exactly when some issue is not an integer; otherwise it
      yields a permutation of the rows, descending by issue, in which rows of
      one issue keep their original order. */
  lemma SortByIssueMeaning(rows: seq<Row>)
    ensures SortByIssue(rows).Err? <==> exists i :: 0 <= i < |rows| && ParseInt(rows[i].issue).Err?
    ensures SortByIssue(rows).Ok? ==>
      var out := SortByIssue(rows).value;
      && |out| == |rows|
      && multiset(out) == multiset(rows)
      && (forall i, j :: 0 <= i < j < |out| ==> IssueOf(out[i]) >= IssueOf(out[j]))
      && (forall k :: WithIssue(out, k) == WithIssue(rows, k))
  {
    if Keyed(rows).Ok? {
      var pairs := Keyed(rows).value;
      var sorted := Ranking.SortDesc(pairs);
      var out := Firsts(sorted);
      Ranking.SortedDescending(pairs);
      assert KeyedBy(pairs);
      KeyedPermutation(pairs, sorted);
      SortDescFirsts(pairs);
      assert Firsts(pairs) == rows;
      forall i, j | 0 <= i < j < |out| ensures IssueOf(out[i]) >= IssueOf(out[j]) {
        assert sorted[i].1 >= sorted[j].1;
      }
      forall k: int ensures WithIssue(out, k) == WithIssue(rows, k) {
        Ranking.SortDescStable(pairs, k as real);
        FirstsWithWeight(sorted, k);
        FirstsWithWeight(pairs, k);
      }
    }
  }

  /** Every pair carries its row's issue as its weight. */
  predicate KeyedBy(s: seq<(Row, real)>) {
    forall i :: 0 <= i < |s| ==> s[i].1 == IssueOf(s[i].0) as real
  }

  lemma KeyedPermutation(p: seq<(Row, real)>, q: seq<(Row, real)>)
    requires KeyedBy(p) && multiset(q) == multiset(p)
    ensures KeyedBy(q)
  {
    forall i | 0 <= i < |q| ensures q[i].1 == IssueOf(q[i].0) as real {
      assert q[i] in multiset(p);
      var m :| 0 <= m < |p| && p[m] == q[i];
    }
  }

  lemma FirstsConcat<T>(a: seq<(T, real)>, b: seq<(T, real)>)
    ensures Firsts(a + b) == Firsts(a) + Firsts(b)
  {
  }

  /** Inserting a pair adds its first component to the multiset of firsts. */
  lemma {:induction false} InsertDescFirsts<T>(x: (T, real), s: seq<(T, real)>)
    ensures multiset(Firsts(Ranking.InsertDesc(x, s))) == multiset(Firsts(s)) + multiset{x.0}
    decreases |s|
  {
    assert Firsts([x]) == [x.0];
    if s == [] || s[0].1 <= x.1 {
      FirstsConcat([x], s);
    } else {
      InsertDescFirsts(x, s[1..]);
      FirstsConcat([s[0]], Ranking.InsertDesc(x, s[1..]));
      FirstsConcat([s[0]], s[1..]);
      assert [s[0]] + s[1..] == s;
      assert Firsts([s[0]]) == [s[0].0];
    }
  }

  /** The sort permutes the first components. */
  lemma {:induction false} SortDescFirsts<T>(s: seq<(T, real)>)
    ensures multiset(Firsts(Ranking.SortDesc(s))) == multiset(Firsts(s))
    decreases |s|
  {
    if s != [] {
      SortDescFirsts(s[1..]);
      InsertDescFirsts(s[0], Ranking.SortDesc(s[1..]));
      FirstsConcat([s[0]], s[1..]);
      assert [s[0]] + s[1..] == s;
      assert Firsts([s[0]]) == [s[0].0];
    }
  }

  /** On keyed pairs, the pairs of weight `k` are those of the rows of issue `k`. */
  lemma {:induction false} FirstsWithWeight(s: seq<(Row, real)>, k: int)
    requires KeyedBy(s)
    ensures Firsts(Ranking.WithWeight(s, k as real)) == WithIssue(Firsts(s), k)
    decreases |s|
  {
    if s != [] {
      var tail := s[1..];
      KeyedTail(s);
      FirstsWithWeight(tail, k);
      var head := if s[0].1 == k as real then [s[0]] else [];
      FirstsConcat(head, Ranking.WithWeight(tail, k as real));
      assert Firsts(s)[0] == s[0].0 && Firsts(s)[1..] == Firsts(tail);
      assert (s[0].1 == k as real) == (IssueOf(s[0].0) == k);
    }
  }

  lemma KeyedTail(s: seq<(Row, real)>)
    requires KeyedBy(s) && s != []
    ensures KeyedBy(s[1..])
  {
    forall i | 0 <= i < |s| - 1 ensures s[1..][i].1 == IssueOf(s[1..][i].0) as real {
      assert s[1..][i] == s[i + 1];
    }
  }

  /** The sort of `main`, in place on the collected rows: when an issue is not
      an integer the rows stay as they were and `ValueError` escapes. */
  method SortAllData(a: array<Row>) returns (err: Option<Error>)
    modifies a
    ensures SortByIssue(old(a[..])).Ok? ==> err == None && a[..] == SortByIssue(old(a[..])).value
    ensures SortByIssue(old(a[..])).Err? ==> err == Some(SortByIssue(old(a[..])).error) && a[..] == old(a[..])
  {
    var keyed := Keyed(a[..]);
    if keyed.Err? {
      return Some(keyed.error);
    }
    var pairs := new (Row, real)[a.Length];
    forall k | 0 <= k < a.Length {
      pairs[k] := keyed.value[k];
    }
    assert pairs[..] == keyed.value;
    SortDescInPlace(pairs);
    forall k | 0 <= k < a.Length {
      a[k] := pairs[k].0;
    }
    assert a[..] == Firsts(pairs[..]);
    err := None;
  }

  /** A stable descending insertion sort in place, right to left. */
  method SortDescInPlace<T>(a: array<(T, real)>)
    modifies a
    ensures a[..] == Ranking.SortDesc(old(a[..]))
  {
    var i := a.Length;
    while i > 0
      invariant 0 <= i <= a.Length
      invariant a[..i] == old(a[..])[..i]
      invariant a[i..] == Ranking.SortDesc(old(a[..])[i..])
    {
      i := i - 1;
      ghost var tail := old(a[..])[i..];
      assert tail == [old(a[..])[i]] + old(a[..])[i + 1..];
      assert a[i] == old(a[..])[i];
      InsertDescIntoTail(a, i);
    }
    assert a[..] == a[0..];
  }

  method InsertDescIntoTail<T>(a: array<(T, real)>, i: int)
    requires 0 <= i < a.Length
    modifies a
    ensures a[..i] == old(a[..i])
    ensures a[i..] == Ranking.InsertDesc(old(a[i]), old(a[i + 1..]))
  {
    var x := a[i];
    var j := i;
    while j + 1 < a.Length && a[j + 1].1 > x.1
      invariant i <= j < a.Length
      invariant forall t :: 0 <= t < i ==> a[t] == old(a[t])
      invariant forall t :: i <= t < j ==> a[t] == old(a[t + 1])
      invariant forall t :: j < t < a.Length ==> a[t] == old(a[t])
      invariant forall t :: i < t <= j ==> old(a[t]).1 > x.1
    {
      a[j] := a[j + 1];
      j := j + 1;
    }
    a[j] := x;
    InsertedDescTail(old(a[..]), a[..], i, j);
  }

  lemma InsertedDescTail<T>(pre: seq<(T, real)>, post: seq<(T, real)>, i: int, j: int)
    requires 0 <= i <= j < |pre| == |post|
    requires forall t :: 0 <= t < i ==> post[t] == pre[t]
    requires forall t :: i <= t < j ==> post[t] == pre[t + 1]
    requires forall t :: j < t < |pre| ==> post[t] == pre[t]
    requires forall t :: i < t <= j ==> pre[t].1 > pre[i].1
    requires post[j] == pre[i]
    requires j + 1 == |pre| || pre[j + 1].1 <= pre[i].1
    ensures post[..i] == pre[..i]
    ensures post[i..] == Ranking.InsertDesc(pre[i], pre[i + 1..])
  {
    var s := pre[i + 1..];
    var k := j - i;
    InsertDescAt(pre[i], s, k);
    assert post[i..] == s[..k] + [pre[i]] + s[k..];
  }

  /** The insertion lands after the pairs that outweigh `x`. */
  lemma {:induction false} InsertDescAt<T>(x: (T, real), s: seq<(T, real)>, k: int)
    requires 0 <= k <= |s|
    requires forall t :: 0 <= t < k ==> s[t].1 > x.1
    requires k == |s| || s[k].1 <= x.1
    ensures Ranking.InsertDesc(x, s) == s[..k] + [x] + s[k..]
    decreases k
  {
    if k > 0 {
      InsertDescAt(x, s[1..], k - 1);
      assert s[..k] == [s[0]] + s[1..][..k - 1];
      assert s[1..][k - 1..] == s[k..];
    }
  }
}
