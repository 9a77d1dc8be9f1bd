/** Keyset pagination over the recovery cases, newest first, and its cursor text. */
module Paging {
  import opened Domain

  /** A case row as the listing sees it; `id` stands for the id's place in the collation. */
  datatype Row = Row(
    merchantId: string, openedAt: int, id: nat,
    outcome: CaseOutcome, diagnosis: Diagnosis, subscription: SubscriptionState)

  datatype Filters = Filters(
    merchantId: string, outcomes: seq<CaseOutcome>, diagnoses: seq<Diagnosis>,
    subscriptions: seq<SubscriptionState>, openedFrom: Option<int>, openedTo: Option<int>)

  predicate Matches(r: Row, f: Filters) {
    && r.merchantId == f.merchantId
    && (f.outcomes == [] || r.outcome in f.outcomes)
    && (f.diagnoses == [] || r.diagnosis in f.diagnoses)
    && (f.subscriptions == [] || r.subscription in f.subscriptions)
    && (f.openedFrom.None? || r.openedAt >= f.openedFrom.value)
    && (f.openedTo.None? || r.openedAt <= f.openedTo.value)
  }

  datatype Cursor = Cursor(openedAt: int, id: nat)

  function KeyOf(r: Row): Cursor { Cursor(r.openedAt, r.id) }

  /** Strictly behind a cursor in the listing order. */
  predicate Behind(r: Row, c: Cursor) { r.openedAt < c.openedAt || (r.openedAt == c.openedAt && r.id < c.id) }

  predicate BehindAll(r: Row, cursor: Option<Cursor>) { cursor.None? || Behind(r, cursor.value) }

  /** The primary key: one row per id. */
  ghost predicate Table(t: seq<Row>) { forall i, j | 0 <= i < j < |t| :: t[i].id != t[j].id }

  ghost predicate Descending(s: seq<Row>) { forall i, j | 0 <= i < j < |s| :: Behind(s[j], KeyOf(s[i])) }

  // ------------------------------------------------------------------ the query

  function Place(r: Row, s: seq<Row>): (t: seq<Row>)
    ensures forall x :: x in t <==> x == r || x in s
    ensures Descending(s) && (forall x | x in s :: x.id != r.id) ==> Descending(t)
  {
    if s == [] || Behind(s[0], KeyOf(r)) then
      PlaceFirst(r, s);
      [r] + s
    else
      assert s == [s[0]] + s[1..];
      HeadStaysFirst(r, s, Place(r, s[1..]));
      [s[0]] + Place(r, s[1..])
  }

  lemma PlaceFirst(r: Row, s: seq<Row>)
    requires s == [] || Behind(s[0], KeyOf(r))
    ensures Descending(s) ==> Descending([r] + s)
  {
    if Descending(s) {
      forall j | 0 <= j < |s| ensures Behind(s[j], KeyOf(r)) { if j > 0 { assert Behind(s[j], KeyOf(s[0])); } }
    }
  }

  lemma HeadStaysFirst(r: Row, s: seq<Row>, rest: seq<Row>)
    requires s != [] && !Behind(s[0], KeyOf(r)) && forall x :: x in rest <==> x == r || x in s[1..]
    ensures Descending(s) && s[0].id != r.id && Descending(rest) ==> Descending([s[0]] + rest)
  {
    if Descending(s) && s[0].id != r.id {
      forall j | 0 <= j < |rest| ensures Behind(rest[j], KeyOf(s[0])) { assert rest[j] in rest; RestWithoutHead(s, rest[j]); }
    }
  }

  /** The matching rows behind a cursor, ordered by (opened_at, id) descending. */
  function Listing(t: seq<Row>, f: Filters, cursor: Option<Cursor>): (s: seq<Row>)
    ensures forall x :: x in s <==> x in t && Matches(x, f) && BehindAll(x, cursor)
    ensures Table(t) ==> Descending(s)
  {
    if t == [] then []
    else
      assert t == [t[0]] + t[1..];
      var rest := Listing(t[1..], f, cursor);
      if Matches(t[0], f) && BehindAll(t[0], cursor) then Place(t[0], rest) else rest
  }

  /** Which rows a listing holds, and in which order. */
  lemma ListingHoldsTheMatchingRows(t: seq<Row>, f: Filters, cursor: Option<Cursor>)
    requires Table(t)
    ensures forall x :: x in Listing(t, f, cursor) <==>
      && x in t && x.merchantId == f.merchantId
      && (f.outcomes == [] || x.outcome in f.outcomes) && (f.diagnoses == [] || x.diagnosis in f.diagnoses)
      && (f.subscriptions == [] || x.subscription in f.subscriptions)
      && (f.openedFrom.Some? ==> f.openedFrom.value <= x.openedAt) && (f.openedTo.Some? ==> x.openedAt <= f.openedTo.value)
      && (cursor.Some? ==> x.openedAt < cursor.value.openedAt
                           || (x.openedAt == cursor.value.openedAt && x.id < cursor.value.id))
    ensures var s := Listing(t, f, cursor);
      forall i, j | 0 <= i < j < |s| ::
        s[i].openedAt > s[j].openedAt || (s[i].openedAt == s[j].openedAt && s[i].id > s[j].id)
  {
    var s := Listing(t, f, cursor);
    forall i, j | 0 <= i < j < |s|
      ensures s[i].openedAt > s[j].openedAt || (s[i].openedAt == s[j].openedAt && s[i].id > s[j].id)
    {
      assert Behind(s[j], KeyOf(s[i]));
    }
  }

  datatype Page = Page(items: seq<Row>, next: Option<Cursor>)

  method ListCases(t: seq<Row>, f: Filters, cursor: Option<Cursor>, limit: nat) returns (page: Page)
    requires limit >= 1
    ensures page == PageOf(Listing(t, f, cursor), limit)
  {
    var ordered := Listing(t, f, cursor);
    var rows := ordered[..Min(|ordered|, limit + 1)];
    var hasMore := |rows| > limit;
    var items := rows[..Min(|rows|, limit)];
    assert items == ordered[..Min(|ordered|, limit)];
    var next: Option<Cursor> := None;
    if hasMore && items != [] { next := Some(KeyOf(items[|items| - 1])); }
    return Page(items, next);
  }

  function PageOf(s: seq<Row>, limit: nat): Page
    requires limit >= 1
  {
    if |s| > limit then Page(s[..limit], Some(KeyOf(s[limit - 1]))) else Page(s, None)
  }

  /** A page is the listing's beginning, full unless the listing ends in it, and points to its
      own last row exactly when rows remain. */
  lemma PageIsTheBeginning(s: seq<Row>, limit: nat)
    requires limit >= 1
    ensures var page := PageOf(s, limit);
      && page.items <= s && |page.items| == (if |s| <= limit then |s| else limit)
      && (page.next.Some? <==> |page.items| < |s|)
      && (page.next.Some? ==> page.next.value.openedAt == s[limit - 1].openedAt && page.next.value.id == s[limit - 1].id)
  {
  }

  // ----------------------------------------------------------- one fixed table

  lemma {:induction false} SameRowsSameOrder(s: seq<Row>, t: seq<Row>)
    requires Descending(s) && Descending(t) && forall x :: x in s <==> x in t
    ensures s == t
  {
    if s == [] {
      HeadIsMember(t);
    } else {
      assert s[0] in t && t != [] && t[0] in s;
      var i :| 0 <= i < |t| && t[i] == s[0];
      var j :| 0 <= j < |s| && s[j] == t[0];
      assert s[0] == t[0];
      forall x ensures x in s[1..] <==> x in t[1..] { RestWithoutHead(s, x); RestWithoutHead(t, x); }
      SameRowsSameOrder(s[1..], t[1..]);
      assert s == [s[0]] + s[1..] && t == [t[0]] + t[1..];
    }
  }

  lemma HeadIsMember(t: seq<Row>)
    ensures t != [] ==> t[0] in t
  {
  }

  lemma RestWithoutHead(s: seq<Row>, x: Row)
    requires Descending(s) && s != []
    ensures x in s[1..] <==> x in s && x != s[0]
    ensures x in s[1..] ==> Behind(x, KeyOf(s[0]))
  {
    assert s == [s[0]] + s[1..];
    if x in s[1..] {
      var i :| 0 <= i < |s[1..]| && s[1..][i] == x;
      assert Behind(s[i + 1], KeyOf(s[0]));
    }
  }

  lemma EarlierAreNotBehind(s: seq<Row>, j: nat)
    requires Descending(s) && j < |s|
    ensures forall i | 0 <= i <= j :: !Behind(s[i], KeyOf(s[j]))
  {
    forall i | 0 <= i < j ensures !Behind(s[i], KeyOf(s[j])) { assert Behind(s[j], KeyOf(s[i])); }
  }

  /** Asking again behind the k-th row of a listing gives the rest of that listing. */
  lemma ResumesBehind(t: seq<Row>, f: Filters, k: nat)
    requires Table(t) && 0 < k <= |Listing(t, f, None)|
    ensures Listing(t, f, Some(KeyOf(Listing(t, f, None)[k - 1]))) == Listing(t, f, None)[k..]
  {
    var s := Listing(t, f, None);
    var c := KeyOf(s[k - 1]);
    EarlierAreNotBehind(s, k - 1);
    forall x ensures x in s[k..] <==> x in t && Matches(x, f) && Behind(x, c) {
      if x in s[k..] {
        var i :| k <= i < |s| && s[i] == x;
        assert Behind(s[i], KeyOf(s[k - 1]));
      }
      if x in t && Matches(x, f) && Behind(x, c) {
        assert x in s;
        var i :| 0 <= i < |s| && s[i] == x;
        assert s[k..][i - k] == x;
      }
    }
    SameRowsSameOrder(Listing(t, f, Some(c)), s[k..]);
  }

  /** How many pages it takes to show n rows: max(1, ceil(n / limit)), see PageCountIsCeiling. */
  function PageCount(n: nat, limit: nat): nat
    requires limit >= 1
  {
    if n <= limit then 1 else 1 + PageCount(n - limit, limit)
  }

  lemma {:induction false} PageCountIsCeiling(n: nat, limit: nat)
    requires limit >= 1
    ensures PageCount(n, limit) == Max(1, (n + limit - 1) / limit)
  {
    if n == 0 {
      QuotientIs(limit - 1, limit, 0, limit - 1);
    } else if n <= limit {
      QuotientIs(n + limit - 1, limit, 1, n - 1);
    } else {
      PageCountIsCeiling(n - limit, limit);
      var q := (n - 1) / limit;
      QuotientIs(n + limit - 1, limit, q + 1, (n - 1) % limit);
      Quotient(n - 1, limit);
    }
  }

  lemma Quotient(x: nat, d: nat)
    requires d >= 1
    ensures x == (x / d) * d + x % d && 0 <= x % d < d && x / d >= 0 && (x >= d ==> x / d >= 1)
  {
    if x >= d { QuotientAtLeastOne(x, d); }
  }

  lemma QuotientAtLeastOne(x: nat, d: nat)
    requires 1 <= d <= x
    ensures x / d >= 1
  {
    var q := x / d;
    assert x == q * d + x % d;
    assert q <= 0 ==> q * d <= 0;
  }

  lemma QuotientIs(x: int, d: int, q: int, r: int)
    requires d >= 1 && x == q * d + r && 0 <= r < d
    ensures x / d == q
  {
    var k := x / d - q;
    assert x == (x / d) * d + x % d;
    assert k * d == r - x % d;
    assert k >= 1 ==> k * d >= d;
    assert k <= -1 ==> k * d <= -d;
  }

  method NextPage(t: seq<Row>, f: Filters, cursor: Cursor, limit: nat, ghost all: seq<Row>, ghost seen: nat) returns (page: Page)
    requires Table(t) && limit >= 1 && all == Listing(t, f, None) && 1 <= seen < |all| && cursor == KeyOf(all[seen - 1])
    ensures page == PageOf(all[seen..], limit)
  {
    ResumesBehind(t, f, seen);
    page := ListCases(t, f, Some(cursor), limit);
  }

  /** Following next_cursor from the start ends after PageCount pages, whose concatenation is
      exactly the matching rows in order, each once. */
  method Walk(t: seq<Row>, f: Filters, limit: nat) returns (pages: seq<seq<Row>>, ghost all: seq<Row>)
    requires Table(t) && limit >= 1
    ensures all == Concat(pages) == Listing(t, f, None)
    ensures |pages| == PageCount(|all|, limit)
    ensures AllButLastFull(pages, limit)
  {
    all := Listing(t, f, None);
    var page := ListCases(t, f, None, limit);
    pages := [page.items];
    ghost var seen := |page.items|;
    WalkBegins(all, limit);
    while page.next.Some?
      invariant Walked(all, pages, page, seen, limit)
      decreases |all| - seen
    {
      ghost var last := page;
      page := NextPage(t, f, page.next.value, limit, all, seen);
      WalkGoesOn(all, pages, last, seen, limit, page);
      pages := pages + [page.items];
      seen := seen + |page.items|;
    }
    assert all[..seen] == all;
  }

  ghost predicate AllButLastFull(pages: seq<seq<Row>>, limit: nat) {
    pages != [] && forall i | 0 <= i < |pages| - 1 :: |pages[i]| == limit
  }

  /** A walk that has shown the first `seen` rows, up to the end of its newest page. */
  ghost predicate Walked(all: seq<Row>, pages: seq<seq<Row>>, page: Page, seen: nat, limit: nat)
    requires limit >= 1
  {
    && seen <= |all| && Concat(pages) == all[..seen]
    && (page.next.Some? ==> 1 <= seen < |all| && page.next.value == KeyOf(all[seen - 1]))
    && (page.next.None? ==> seen == |all|)
    && PageCount(|all|, limit) == |pages| + (if page.next.Some? then PageCount(|all| - seen, limit) else 0)
    && AllButLastFull(pages, limit) && pages[|pages| - 1] == page.items
    && (page.next.Some? ==> |page.items| == limit)
  }

  lemma WalkBegins(all: seq<Row>, limit: nat)
    requires limit >= 1
    ensures var page := PageOf(all, limit); Walked(all, [page.items], page, |page.items|, limit)
  {
    var page := PageOf(all, limit);
    ConcatAppend([], page.items);
    if page.next.None? { assert page.items == all[..|all|]; }
  }

  lemma WalkGoesOn(all: seq<Row>, pages: seq<seq<Row>>, last: Page, seen: nat, limit: nat, page: Page)
    requires limit >= 1 && Walked(all, pages, last, seen, limit) && last.next.Some? && page == PageOf(all[seen..], limit)
    ensures Walked(all, pages + [page.items], page, seen + |page.items|, limit) && |page.items| >= 1
  {
    PageMovesOn(all, seen, limit);
    ConcatAppend(pages, page.items);
  }

  /** A page of what is left of a listing extends what was shown, and points to its end. */
  lemma PageMovesOn(all: seq<Row>, seen: nat, limit: nat)
    requires limit >= 1 && seen < |all|
    ensures var page := PageOf(all[seen..], limit); var shown := seen + |page.items|;
            && 1 <= |page.items| <= limit && shown <= |all| && all[..seen] + page.items == all[..shown]
            && (page.next.Some? <==> shown < |all|)
            && (page.next.Some? ==> page.next.value == KeyOf(all[shown - 1]) && |page.items| == limit)
            && PageCount(|all| - seen, limit) == 1 + if page.next.Some? then PageCount(|all| - shown, limit) else 0
  {
  }

  function Concat(pages: seq<seq<Row>>): seq<Row> {
    if pages == [] then [] else Concat(pages[..|pages| - 1]) + pages[|pages| - 1]
  }

  lemma ConcatAppend(pages: seq<seq<Row>>, page: seq<Row>)
    ensures Concat(pages + [page]) == Concat(pages) + page
  {
    assert (pages + [page])[..|pages|] == pages;
  }

  // ------------------------------------------------------- a table that changes

  /** A walk whose i-th request reads tables[i]; it stops early when the tables run out. */
  function Pages(tables: seq<seq<Row>>, f: Filters, cursor: Option<Cursor>, limit: nat): seq<Row>
    requires limit >= 1
  {
    if tables == [] then []
    else
      var page := PageOf(Listing(tables[0], f, cursor), limit);
      page.items + if page.next.Some? then Pages(tables[1..], f, page.next, limit) else []
  }

  predicate Finishes(tables: seq<seq<Row>>, f: Filters, cursor: Option<Cursor>, limit: nat)
    requires limit >= 1
  {
    tables != [] &&
    var page := PageOf(Listing(tables[0], f, cursor), limit);
    page.next.Some? ==> Finishes(tables[1..], f, page.next, limit)
  }

  /** Whatever is inserted, changed or deleted between two requests, a walk is strictly
      descending: no row comes twice. */
  lemma {:induction false} InsertsNeverRepeat(tables: seq<seq<Row>>, f: Filters, cursor: Option<Cursor>, limit: nat)
    requires limit >= 1 && forall i | 0 <= i < |tables| :: Table(tables[i])
    ensures Descending(Pages(tables, f, cursor, limit))
    ensures forall x | x in Pages(tables, f, cursor, limit) :: BehindAll(x, cursor)
    ensures forall i, j | 0 <= i < j < |Pages(tables, f, cursor, limit)| ::
      KeyOf(Pages(tables, f, cursor, limit)[i]) != KeyOf(Pages(tables, f, cursor, limit)[j])
  {
    if tables != [] {
      var s := Listing(tables[0], f, cursor);
      var page := PageOf(s, limit);
      if page.next.Some? {
        InsertsNeverRepeat(tables[1..], f, page.next, limit);
        AppendBehind(page.items, Pages(tables[1..], f, page.next, limit));
        assert s[limit - 1] in s;
        forall x | x in Pages(tables[1..], f, page.next, limit) ensures BehindAll(x, cursor) { assert Behind(x, KeyOf(s[limit - 1])); }
      }
    }
  }

  lemma AppendBehind(a: seq<Row>, b: seq<Row>)
    requires Descending(a) && Descending(b) && a != [] && forall x | x in b :: Behind(x, KeyOf(a[|a| - 1]))
    ensures Descending(a + b)
  {
    forall i, j | 0 <= i < |a| && 0 <= j < |b| ensures Behind(b[j], KeyOf(a[i])) {
      assert b[j] in b;
      if i < |a| - 1 { assert Behind(a[|a| - 1], KeyOf(a[i])); }
    }
  }

  /** A finished walk shows every row that matched throughout it. */
  lemma {:induction false} StableRowsAreListed(tables: seq<seq<Row>>, f: Filters, cursor: Option<Cursor>, limit: nat, r: Row)
    requires limit >= 1 && Finishes(tables, f, cursor, limit) && BehindAll(r, cursor)
    requires forall i | 0 <= i < |tables| :: Table(tables[i]) && r in tables[i] && Matches(r, f)
    ensures r in Pages(tables, f, cursor, limit)
  {
    var s := Listing(tables[0], f, cursor);
    var page := PageOf(s, limit);
    assert r in tables[0];
    assert r in s;
    if r !in page.items {
      var i :| 0 <= i < |s| && s[i] == r;
      assert limit <= i && Behind(s[i], KeyOf(s[limit - 1]));
      StableRowsAreListed(tables[1..], f, page.next, limit, r);
    }
  }

  // -------------------------------------------------------------- cursor text

  type Byte = b: int | 0 <= b < 256

  /** A character of base64url text: a digit stands for its letter in the alphabet. */
  datatype Symbol = Digit(value: int) | Pad

  /** RFC 4648, sections 4 and 5. */
  function Encode(bytes: seq<Byte>): (text: seq<Symbol>)
    ensures |text| % 4 == 0
  {
    if bytes == [] then []
    else if |bytes| == 1 then [Digit(bytes[0] / 4), Digit(bytes[0] % 4 * 16), Pad, Pad]
    else if |bytes| == 2 then
      [Digit(bytes[0] / 4), Digit(bytes[0] % 4 * 16 + bytes[1] / 16), Digit(bytes[1] % 16 * 4), Pad]
    else
      [Digit(bytes[0] / 4), Digit(bytes[0] % 4 * 16 + bytes[1] / 16),
       Digit(bytes[1] % 16 * 4 + bytes[2] / 64), Digit(bytes[2] % 64)] + Encode(bytes[3..])
  }

  predicate IsDigit(s: Symbol) { s.Digit? && 0 <= s.value < 64 }

  function Decode(text: seq<Symbol>): Option<seq<Byte>> {
    if text == [] then Some([])
    else if |text| < 4 || !IsDigit(text[0]) || !IsDigit(text[1]) then None
    else
      var b0 := text[0].value * 4 + text[1].value / 16;
      if text[2].Pad? then
        if text[3].Pad? && |text| == 4 then Some([b0]) else None
      else if !IsDigit(text[2]) then None
      else
        var b1 := text[1].value % 16 * 16 + text[2].value / 4;
        if text[3].Pad? then if |text| == 4 then Some([b0, b1]) else None
        else if !IsDigit(text[3]) || Decode(text[4..]).None? then None
        else Some([b0, b1, text[2].value % 4 * 64 + text[3].value] + Decode(text[4..]).value)
  }

  /** rstrip of the padding. */
  function Stripped(text: seq<Symbol>): seq<Symbol> {
    if text != [] && text[|text| - 1] == Pad then Stripped(text[..|text| - 1]) else text
  }

  /** Appending -len % 4 padding characters. */
  function Restored(text: seq<Symbol>): seq<Symbol> { text + seq(-|text| % 4, _ => Pad) }

  lemma DigitsHoldThreeBytes(b0: Byte, b1: Byte, b2: Byte)
    ensures var d0, d1, d2, d3 := b0 / 4, b0 % 4 * 16 + b1 / 16, b1 % 16 * 4 + b2 / 64, b2 % 64;
            && 0 <= d0 < 64 && 0 <= d1 < 64 && 0 <= d2 < 64 && 0 <= d3 < 64
            && d0 * 4 + d1 / 16 == b0 && d1 % 16 * 16 + d2 / 4 == b1 && d2 % 4 * 64 + d3 == b2
  {
  }

  lemma DecodesGroup(d0: int, d1: int, d2: int, d3: int, rest: seq<Symbol>, tail: seq<Byte>)
    requires 0 <= d0 < 64 && 0 <= d1 < 64 && 0 <= d2 < 64 && 0 <= d3 < 64 && Decode(rest) == Some(tail)
    ensures Decode([Digit(d0), Digit(d1), Digit(d2), Digit(d3)] + rest)
         == Some([d0 * 4 + d1 / 16, d1 % 16 * 16 + d2 / 4, d2 % 4 * 64 + d3] + tail)
  {
    assert ([Digit(d0), Digit(d1), Digit(d2), Digit(d3)] + rest)[4..] == rest;
  }

  lemma {:induction false} DecodeInvertsEncode(bytes: seq<Byte>)
    ensures Decode(Encode(bytes)) == Some(bytes)
  {
    if |bytes| >= 3 {
      DecodeInvertsEncode(bytes[3..]);
      var b0, b1, b2 := bytes[0], bytes[1], bytes[2];
      DigitsHoldThreeBytes(b0, b1, b2);
      DecodesGroup(b0 / 4, b0 % 4 * 16 + b1 / 16, b1 % 16 * 4 + b2 / 64, b2 % 64, Encode(bytes[3..]), bytes[3..]);
      assert bytes == [bytes[0], bytes[1], bytes[2]] + bytes[3..];
    } else if |bytes| == 2 {
      assert bytes == [bytes[0], bytes[1]];
      ShortTextsDecode(bytes[0], bytes[1]);
    } else if |bytes| == 1 {
      assert bytes == [bytes[0]];
      ShortTextsDecode(bytes[0], bytes[0]);
    }
  }

  lemma ShortTextsDecode(b0: Byte, b1: Byte)
    ensures Decode(Encode([b0])) == Some([b0]) && Decode(Encode([b0, b1])) == Some([b0, b1])
  {
  }

  lemma {:induction false} PaddingEndsText(bytes: seq<Byte>)
    ensures var text := Encode(bytes); var n := |text| - (if |bytes| % 3 == 0 then 0 else 3 - |bytes| % 3);
            && 0 <= n && (forall i | 0 <= i < n :: IsDigit(text[i])) && (forall i | n <= i < |text| :: text[i] == Pad)
  {
    if |bytes| >= 3 { PaddingEndsText(bytes[3..]); }
  }

  lemma {:induction false} StrippedTo(text: seq<Symbol>, n: nat)
    requires n <= |text| && (n > 0 ==> text[n - 1] != Pad) && forall i | n <= i < |text| :: text[i] == Pad
    ensures Stripped(text) == text[..n]
    decreases |text|
  {
    if n < |text| {
      StrippedTo(text[..|text| - 1], n);
      assert text[..|text| - 1][..n] == text[..n];
    } else {
      assert text[..n] == text;
    }
  }

  lemma RestoresPadding(text: seq<Symbol>, n: nat)
    requires |text| % 4 == 0 && |text| - 3 <= n <= |text| && forall i | n <= i < |text| :: text[i] == Pad
    ensures Restored(text[..n]) == text
  {
    var length: int := n;
    assert -length % 4 == |text| - n;
  }

  /** Stripping the padding loses nothing: restoring it gives the encoded text back, which
      decodes to the payload. */
  lemma CursorTextRoundTrips(bytes: seq<Byte>)
    ensures Restored(Stripped(Encode(bytes))) == Encode(bytes)
    ensures Decode(Restored(Stripped(Encode(bytes)))) == Some(bytes)
  {
    var text := Encode(bytes);
    var pads := if |bytes| % 3 == 0 then 0 else 3 - |bytes| % 3;
    PaddingEndsText(bytes);
    StrippedTo(text, |text| - pads);
    RestoresPadding(text, |text| - pads);
    DecodeInvertsEncode(bytes);
  }
}
