/**
 The daily queue: reading the sources, ordering what is visible, and keyset pages over it.

 Which items an actor's scope, filters and dismissals leave visible is a parameter. A signed cursor is
 the list of values it carries; a selection stands for its digest.
 */
module BriefingPages {
  import opened Options

  datatype Date = Date(year: int, month: int, day: int)
  {
    predicate Valid() {
      1 <= year <= 9999 && 1 <= month <= 12 && 1 <= day <= DaysIn(year, month)
    }
  }

  const DATE_MAX := Date(9999, 12, 31)

  function DaysIn(year: int, month: int): int {
    if month == 2 then (if year % 4 == 0 && (year % 100 != 0 || year % 400 == 0) then 29 else 28)
    else if month in {4, 6, 9, 11} then 30
    else 31
  }

  /** A source fact; `factors` are the weights whose sum is its priority. */
  datatype Item = Item(kind: string, subject: string, due: Option<Date>, factors: seq<int>)
  {
    function Id(): string {
      kind + ":" + subject
    }

    function OrderKey(): Key {
      Key(-Sum(factors), if due.Some? then due.value else DATE_MAX, Id())
    }
  }

  datatype Key = Key(rank: int, due: Date, id: string)

  function Sum(weights: seq<int>): int {
    if weights == [] then 0 else weights[0] + Sum(weights[1..])
  }

  // ---------------------------------------------------------------------------------------------
  // The order
  // ---------------------------------------------------------------------------------------------

  predicate TextLess(a: string, b: string) {
    b != "" && (a == "" || a[0] < b[0] || (a[0] == b[0] && TextLess(a[1..], b[1..])))
  }

  predicate DateLess(a: Date, b: Date) {
    a.year < b.year || (a.year == b.year && (a.month < b.month || (a.month == b.month && a.day < b.day)))
  }

  predicate Less(a: Key, b: Key) {
    a.rank < b.rank || (a.rank == b.rank && (DateLess(a.due, b.due) || (a.due == b.due && TextLess(a.id, b.id))))
  }

  lemma {:induction false} TextOrder(a: string, b: string, c: string)
    ensures !TextLess(a, a)
    ensures TextLess(a, b) || a == b || TextLess(b, a)
    ensures TextLess(a, b) && TextLess(b, c) ==> TextLess(a, c)
  {
    if a != "" && b != "" {
      TextOrder(a[1..], b[1..], if c == "" then c else c[1..]);
      assert a == [a[0]] + a[1..] && b == [b[0]] + b[1..];
    } else if a != "" {
      TextOrder(a[1..], "", "");
    }
  }

  /** Keys are totally and strictly ordered. */
  lemma KeyOrder(a: Key, b: Key, c: Key)
    ensures !Less(a, a)
    ensures Less(a, b) || a == b || Less(b, a)
    ensures Less(a, b) && Less(b, c) ==> Less(a, c)
  {
    TextOrder(a.id, b.id, c.id);
  }

  lemma FirstColon(kind: string, subject: string)
    requires ':' !in kind
    ensures (kind + ":" + subject)[|kind|] == ':'
    ensures forall i :: 0 <= i < |kind| ==> (kind + ":" + subject)[i] != ':'
  {
    assert forall i :: 0 <= i < |kind| ==> (kind + ":" + subject)[i] == kind[i];
  }

  /** Two facts share an identity only when they are the same kind of fact about the same subject. */
  lemma IdentityIsKindAndSubject(a: Item, b: Item)
    requires ':' !in a.kind && ':' !in b.kind
    ensures a.Id() == b.Id() <==> a.kind == b.kind && a.subject == b.subject
  {
    FirstColon(a.kind, a.subject);
    FirstColon(b.kind, b.subject);
    if a.Id() == b.Id() {
      assert |a.kind| == |b.kind|;
      assert a.kind == a.Id()[..|a.kind|] && b.kind == b.Id()[..|a.kind|];
      assert a.subject == a.Id()[|a.kind| + 1..] && b.subject == b.Id()[|a.kind| + 1..];
    }
  }

  // ---------------------------------------------------------------------------------------------
  // Sorting
  // ---------------------------------------------------------------------------------------------

  /** Stable insertion: after everything that is not greater. */
  function Insert(x: Item, s: seq<Item>): seq<Item> {
    if s == [] then [x]
    else
      var n := |s| - 1;
      if Less(x.OrderKey(), s[n].OrderKey()) then Insert(x, s[..n]) + [s[n]] else s + [x]
  }

  function Sort(s: seq<Item>): seq<Item> {
    if s == [] then [] else Insert(s[|s| - 1], Sort(s[..|s| - 1]))
  }

  lemma {:induction false} InsertPermutes(x: Item, s: seq<Item>)
    ensures multiset(Insert(x, s)) == multiset(s) + multiset{x} && |Insert(x, s)| == |s| + 1
  {
    if s != [] {
      InsertPermutes(x, s[..|s| - 1]);
      assert s == s[..|s| - 1] + [s[|s| - 1]];
    }
  }

  lemma {:induction false} SortPermutes(s: seq<Item>)
    ensures multiset(Sort(s)) == multiset(s) && |Sort(s)| == |s|
  {
    if s != [] {
      SortPermutes(s[..|s| - 1]);
      InsertPermutes(s[|s| - 1], Sort(s[..|s| - 1]));
      assert s == s[..|s| - 1] + [s[|s| - 1]];
    }
  }

  predicate Ascending(s: seq<Item>) {
    forall i, j :: 0 <= i < j < |s| ==> !Less(s[j].OrderKey(), s[i].OrderKey())
  }

  predicate StrictlyAscending(s: seq<Item>) {
    forall i, j :: 0 <= i < j < |s| ==> Less(s[i].OrderKey(), s[j].OrderKey())
  }

  predicate DistinctKeys(s: seq<Item>) {
    forall i, j :: 0 <= i < j < |s| ==> s[i].OrderKey() != s[j].OrderKey()
  }

  lemma AscendingSnoc(s: seq<Item>, y: Item)
    requires Ascending(s) && forall i :: 0 <= i < |s| ==> !Less(y.OrderKey(), s[i].OrderKey())
    ensures Ascending(s + [y])
  {
  }

  /** What does not come after the last item of an ascending list comes after none of it. */
  lemma AfterAll(x: Item, s: seq<Item>, i: nat)
    requires Ascending(s) && i < |s| && !Less(x.OrderKey(), s[|s| - 1].OrderKey())
    ensures !Less(x.OrderKey(), s[i].OrderKey())
  {
    var last := s[|s| - 1].OrderKey();
    KeyOrder(x.OrderKey(), s[i].OrderKey(), last);
    KeyOrder(last, x.OrderKey(), s[i].OrderKey());
    KeyOrder(s[i].OrderKey(), last, x.OrderKey());
  }

  lemma {:induction false} InsertAscends(x: Item, s: seq<Item>)
    requires Ascending(s)
    ensures Ascending(Insert(x, s))
  {
    if s != [] {
      var n := |s| - 1;
      if Less(x.OrderKey(), s[n].OrderKey()) {
        InsertAscends(x, s[..n]);
        var r := Insert(x, s[..n]);
        forall i | 0 <= i < |r|
          ensures !Less(s[n].OrderKey(), r[i].OrderKey())
        {
          InsertPermutes(x, s[..n]);
          assert r[i] in multiset(r);
          assert r[i] == x || r[i] in s[..n];
          KeyOrder(s[n].OrderKey(), x.OrderKey(), s[n].OrderKey());
        }
        AscendingSnoc(r, s[n]);
      } else {
        forall i | 0 <= i < |s|
          ensures !Less(x.OrderKey(), s[i].OrderKey())
        {
          AfterAll(x, s, i);
        }
        AscendingSnoc(s, x);
      }
    }
  }

  lemma {:induction false} SortAscends(s: seq<Item>)
    ensures Ascending(Sort(s))
  {
    if s != [] {
      SortAscends(s[..|s| - 1]);
      InsertAscends(s[|s| - 1], Sort(s[..|s| - 1]));
    }
  }

  // ---------------------------------------------------------------------------------------------
  // What the order means
  // ---------------------------------------------------------------------------------------------

  predicate DueIsDate(x: Item) {
    x.due.Some? ==> x.due.value.Valid()
  }

  /** The first is due on an earlier day, or the second not at all; the last calendar day counts as undated. */
  predicate DueSooner(a: Option<Date>, b: Option<Date>) {
    && a.Some? && a.value != Date(9999, 12, 31)
    && (b.Some? ==>
          || a.value.year < b.value.year
          || (a.value.year == b.value.year
              && (a.value.month < b.value.month
                  || (a.value.month == b.value.month && a.value.day < b.value.day))))
  }

  /** A higher sum of weights first, then the earlier due date with undated items last, then the identity. */
  lemma OrderMeans(a: Item, b: Item)
    requires DueIsDate(a) && DueIsDate(b)
    ensures Less(a.OrderKey(), b.OrderKey())
            <==> || Sum(a.factors) > Sum(b.factors)
                 || (Sum(a.factors) == Sum(b.factors)
                     && (DueSooner(a.due, b.due)
                         || (!DueSooner(b.due, a.due)
                             && TextLess(a.kind + ":" + a.subject, b.kind + ":" + b.subject))))
  {
    assert TextLess(a.kind + ":" + a.subject, b.kind + ":" + b.subject) == TextLess(a.Id(), b.Id());
  }

  /** In the sorted queue no item stands behind one of lower priority, nor behind one of its own due later. */
  lemma QueueServesUrgentFirst(visible: seq<Item>, i: nat, j: nat)
    requires i < j < |Sort(visible)| && DueIsDate(Sort(visible)[i]) && DueIsDate(Sort(visible)[j])
    ensures var a, b := Sort(visible)[i], Sort(visible)[j];
            && Sum(a.factors) >= Sum(b.factors)
            && (Sum(a.factors) == Sum(b.factors) ==> !DueSooner(b.due, a.due))
  {
    SortAscends(visible);
    OrderMeans(Sort(visible)[j], Sort(visible)[i]);
  }

  // ---------------------------------------------------------------------------------------------
  // Pages of one queue
  // ---------------------------------------------------------------------------------------------

  predicate Past(boundary: Option<Key>, x: Item) {
    boundary.None? || Less(boundary.value, x.OrderKey())
  }

  /** What is left after a boundary, in order. */
  function Above(s: seq<Item>, boundary: Option<Key>): seq<Item> {
    if s == [] then []
    else if Past(boundary, s[0]) then [s[0]] + Above(s[1..], boundary)
    else Above(s[1..], boundary)
  }

  lemma {:induction false} AboveHolds(s: seq<Item>, boundary: Option<Key>, x: Item)
    ensures x in Above(s, boundary) <==> x in s && Past(boundary, x)
  {
    if s != [] {
      AboveHolds(s[1..], boundary, x);
    }
  }

  /** One page of an ordered queue, and where the next one starts if anything is left. */
  datatype Page = Page(items: seq<Item>, next: Option<Key>)

  function PageOf(queue: seq<Item>, boundary: Option<Key>, limit: nat): Page
    requires limit >= 1
  {
    var eligible := Above(queue, boundary);
    if |eligible| > limit then Page(eligible[..limit], Some(eligible[limit - 1].OrderKey())) else Page(eligible, None)
  }

  lemma {:induction false} AboveAscends(s: seq<Item>, boundary: Option<Key>)
    requires StrictlyAscending(s)
    ensures StrictlyAscending(Above(s, boundary))
  {
    if s != [] {
      AboveAscends(s[1..], boundary);
      var r := Above(s[1..], boundary);
      forall i | 0 <= i < |r|
        ensures Less(s[0].OrderKey(), r[i].OrderKey())
      {
        AboveHolds(s[1..], boundary, r[i]);
      }
    }
  }

  lemma {:induction false} AboveFits(s: seq<Item>, boundary: Option<Key>)
    ensures |Above(s, boundary)| <= |s|
    ensures boundary.None? ==> Above(s, boundary) == s
  {
    if s != [] {
      AboveFits(s[1..], boundary);
    }
  }

  /** Moving the boundary on from an eligible item leaves what a single look past that item leaves. */
  lemma {:induction false} AboveTwice(s: seq<Item>, boundary: Option<Key>, further: Key)
    requires boundary.Some? ==> Less(boundary.value, further)
    ensures Above(Above(s, boundary), Some(further)) == Above(s, Some(further))
  {
    if s != [] {
      AboveTwice(s[1..], boundary, further);
      if boundary.Some? {
        KeyOrder(boundary.value, further, s[0].OrderKey());
      }
      if Past(boundary, s[0]) {
        assert Above(s, boundary)[1..] == Above(s[1..], boundary);
      }
    }
  }

  lemma {:induction false} AboveShrinks(s: seq<Item>, i: nat)
    requires i < |s|
    ensures |Above(s, Some(s[i].OrderKey()))| < |s|
  {
    var key := s[i].OrderKey();
    KeyOrder(key, key, key);
    if i > 0 {
      AboveShrinks(s[1..], i - 1);
      assert s[1..][i - 1] == s[i];
    } else {
      AboveFits(s[1..], Some(key));
    }
  }

  /** The next boundary lies past this one and always leaves less: following cursors ends, whatever the keys. */
  lemma NextLeavesLess(queue: seq<Item>, boundary: Option<Key>, limit: nat)
    requires limit >= 1 && PageOf(queue, boundary, limit).next.Some?
    ensures var next := PageOf(queue, boundary, limit).next;
            && (boundary.Some? ==> Less(boundary.value, next.value))
            && |Above(queue, next)| < |Above(queue, boundary)|
  {
    var eligible := Above(queue, boundary);
    var last := eligible[limit - 1];
    AboveHolds(queue, boundary, last);
    AboveTwice(queue, boundary, last.OrderKey());
    AboveShrinks(eligible, limit - 1);
  }

  /**
   What one page shows: only visible items past the boundary, exactly as many as asked for when a cursor
   follows, the cursor being the last one's key; and what it leaves out does not come before that.
   */
  lemma PageShowsTheFirst(visible: seq<Item>, boundary: Option<Key>, limit: nat, x: Item)
    requires limit >= 1
    ensures var page := PageOf(Sort(visible), boundary, limit);
            && |page.items| <= limit
            && (page.next.Some? ==> |page.items| == limit && page.next.value == page.items[limit - 1].OrderKey())
            && (x in page.items ==> x in visible && Past(boundary, x))
            && (x in visible && Past(boundary, x) && x !in page.items ==>
                  page.next.Some? && !Less(x.OrderKey(), page.next.value))
  {
    var queue := Sort(visible);
    var eligible := Above(queue, boundary);
    SortPermutes(visible);
    SortAscends(visible);
    AboveHolds(queue, boundary, x);
    assert x in multiset(visible) <==> x in multiset(queue);
    AboveStaysAscending(queue, boundary);
    if x in eligible && |eligible| > limit {
      var i :| 0 <= i < |eligible| && eligible[i] == x;
      if i < limit {
        assert eligible[..limit][i] == x;
      }
      KeyOrder(x.OrderKey(), x.OrderKey(), x.OrderKey());
    }
  }

  lemma {:induction false} AboveStaysAscending(s: seq<Item>, boundary: Option<Key>)
    requires Ascending(s)
    ensures Ascending(Above(s, boundary))
  {
    if s != [] {
      AboveStaysAscending(s[1..], boundary);
      var r := Above(s[1..], boundary);
      forall i | 0 <= i < |r|
        ensures !Less(r[i].OrderKey(), s[0].OrderKey())
      {
        AboveHolds(s[1..], boundary, r[i]);
      }
    }
  }

  /** Every page from a boundary on, following the cursor until there is none. */
  function Walk(queue: seq<Item>, boundary: Option<Key>, limit: nat): seq<Item>
    requires limit >= 1
    decreases |Above(queue, boundary)|
  {
    var page := PageOf(queue, boundary, limit);
    if page.next.None? then page.items
    else
      NextLeavesLess(queue, boundary, limit);
      page.items + Walk(queue, page.next, limit)
  }

  /** In a strict order, what is past an item is what follows it. */
  lemma {:induction false} AboveIsTheRest(s: seq<Item>, i: nat)
    requires StrictlyAscending(s) && i < |s|
    ensures Above(s, Some(s[i].OrderKey())) == s[i + 1..]
  {
    var key := s[i].OrderKey();
    KeyOrder(key, key, key);
    KeyOrder(s[0].OrderKey(), key, s[0].OrderKey());
    if i > 0 {
      AboveIsTheRest(s[1..], i - 1);
      assert s[1..][i - 1] == s[i];
    } else {
      AllAbove(s[1..], key);
    }
  }

  lemma {:induction false} AllAbove(s: seq<Item>, key: Key)
    requires forall i :: 0 <= i < |s| ==> Less(key, s[i].OrderKey())
    ensures Above(s, Some(key)) == s
  {
    if s != [] {
      AllAbove(s[1..], key);
    }
  }

  lemma {:induction false} WalkIsTheRest(queue: seq<Item>, boundary: Option<Key>, limit: nat)
    requires limit >= 1 && StrictlyAscending(queue)
    ensures Walk(queue, boundary, limit) == Above(queue, boundary)
    decreases |Above(queue, boundary)|
  {
    var eligible := Above(queue, boundary);
    var page := PageOf(queue, boundary, limit);
    if page.next.Some? {
      NextLeavesLess(queue, boundary, limit);
      WalkIsTheRest(queue, page.next, limit);
      NextIsTheRest(queue, boundary, limit);
      assert eligible == eligible[..limit] + eligible[limit..];
    }
  }

  lemma NextIsTheRest(queue: seq<Item>, boundary: Option<Key>, limit: nat)
    requires limit >= 1 && StrictlyAscending(queue) && PageOf(queue, boundary, limit).next.Some?
    ensures Above(queue, PageOf(queue, boundary, limit).next) == Above(queue, boundary)[limit..]
  {
    AboveAscends(queue, boundary);
    RestPast(queue, boundary, Above(queue, boundary), limit - 1);
  }

  /** Past an eligible item lies what follows it among the eligible. */
  lemma RestPast(queue: seq<Item>, boundary: Option<Key>, eligible: seq<Item>, i: nat)
    requires eligible == Above(queue, boundary) && StrictlyAscending(eligible) && i < |eligible|
    ensures Above(queue, Some(eligible[i].OrderKey())) == eligible[i + 1..]
  {
    AboveHolds(queue, boundary, eligible[i]);
    AboveTwice(queue, boundary, eligible[i].OrderKey());
    AboveIsTheRest(eligible, i);
  }

  predicate AllBefore(s: seq<Item>, key: Key) {
    forall i :: 0 <= i < |s| ==> Less(s[i].OrderKey(), key)
  }

  predicate KeyMissing(s: seq<Item>, key: Key) {
    forall i :: 0 <= i < |s| ==> s[i].OrderKey() != key
  }

  lemma StrictSnoc(s: seq<Item>, y: Item)
    ensures StrictlyAscending(s + [y]) <==> StrictlyAscending(s) && AllBefore(s, y.OrderKey())
  {
    var r := s + [y];
    if StrictlyAscending(r) {
      forall i, j | 0 <= i < j < |s|
        ensures Less(s[i].OrderKey(), s[j].OrderKey())
      {
        assert Less(r[i].OrderKey(), r[j].OrderKey());
      }
      forall i | 0 <= i < |s|
        ensures Less(s[i].OrderKey(), y.OrderKey())
      {
        assert Less(r[i].OrderKey(), r[|s|].OrderKey());
      }
    }
  }

  /** Appended last: all the strict order comes before a key that is neither smaller nor there yet. */
  lemma AppendedIsAfter(x: Item, s: seq<Item>)
    requires s != [] && !Less(x.OrderKey(), s[|s| - 1].OrderKey())
    ensures StrictlyAscending(s) ==> (AllBefore(s, x.OrderKey()) <==> KeyMissing(s, x.OrderKey()))
  {
    var last := s[|s| - 1].OrderKey();
    KeyOrder(last, x.OrderKey(), last);
    if StrictlyAscending(s) {
      forall i | 0 <= i < |s|
        ensures last != x.OrderKey() ==> Less(s[i].OrderKey(), x.OrderKey())
        ensures Less(s[i].OrderKey(), x.OrderKey()) ==> s[i].OrderKey() != x.OrderKey()
      {
        KeyOrder(s[i].OrderKey(), last, x.OrderKey());
        KeyOrder(s[i].OrderKey(), x.OrderKey(), x.OrderKey());
      }
    }
  }

  /** Whoever is inserted before the last item: all come before it exactly when the rest did. */
  lemma InsertedBeforeLast(x: Item, s: seq<Item>, y: Item)
    requires Less(x.OrderKey(), y.OrderKey())
    ensures AllBefore(Insert(x, s), y.OrderKey()) <==> AllBefore(s, y.OrderKey())
  {
    var r := Insert(x, s);
    InsertPermutes(x, s);
    forall i | 0 <= i < |r|
      ensures r[i] == x || r[i] in s
    {
      assert r[i] in multiset(r);
    }
    forall i | 0 <= i < |s|
      ensures s[i] in r
    {
      assert s[i] in multiset(r);
    }
  }

  /** A key can be inserted into a strict order exactly when it is not there yet. */
  lemma {:induction false} InsertIsStrict(x: Item, s: seq<Item>)
    ensures StrictlyAscending(Insert(x, s)) <==> StrictlyAscending(s) && KeyMissing(s, x.OrderKey())
  {
    if s != [] {
      var n := |s| - 1;
      assert s == s[..n] + [s[n]];
      if Less(x.OrderKey(), s[n].OrderKey()) {
        InsertIsStrict(x, s[..n]);
        StrictSnoc(Insert(x, s[..n]), s[n]);
        StrictSnoc(s[..n], s[n]);
        InsertedBeforeLast(x, s[..n], s[n]);
        KeyOrder(x.OrderKey(), x.OrderKey(), x.OrderKey());
        assert KeyMissing(s, x.OrderKey()) <==> KeyMissing(s[..n], x.OrderKey());
      } else {
        StrictSnoc(s, x);
        AppendedIsAfter(x, s);
      }
    }
  }

  lemma DistinctSnoc(s: seq<Item>, y: Item)
    ensures DistinctKeys(s + [y]) <==> DistinctKeys(s) && KeyMissing(s, y.OrderKey())
  {
    var r := s + [y];
    if DistinctKeys(r) {
      forall i, j | 0 <= i < j < |s|
        ensures s[i].OrderKey() != s[j].OrderKey()
      {
        assert r[i].OrderKey() != r[j].OrderKey();
      }
      forall i | 0 <= i < |s|
        ensures s[i].OrderKey() != y.OrderKey()
      {
        assert r[i].OrderKey() != r[|s|].OrderKey();
      }
    }
  }

  lemma {:induction false} SortIsStrict(s: seq<Item>)
    ensures StrictlyAscending(Sort(s)) <==> DistinctKeys(s)
  {
    if s != [] {
      var n := |s| - 1;
      SortIsStrict(s[..n]);
      InsertIsStrict(s[n], Sort(s[..n]));
      SortKeepsKeys(s[..n], s[n].OrderKey());
      DistinctSnoc(s[..n], s[n]);
      assert s == s[..n] + [s[n]];
    }
  }

  lemma SortKeepsKeys(s: seq<Item>, key: Key)
    ensures KeyMissing(Sort(s), key) <==> KeyMissing(s, key)
  {
    SortPermutes(s);
    forall i | 0 <= i < |s|
      ensures s[i] in Sort(s)
    {
      assert s[i] in multiset(Sort(s));
    }
    forall i | 0 <= i < |s|
      ensures Sort(s)[i] in s
    {
      assert Sort(s)[i] in multiset(s);
    }
  }

  /** One item a page: each next item lies past the one before. */
  lemma {:induction false} WalkByOnesAscends(queue: seq<Item>, boundary: Option<Key>)
    ensures var shown := Walk(queue, boundary, 1);
            StrictlyAscending(shown) && forall i :: 0 <= i < |shown| ==> Past(boundary, shown[i])
    decreases |Above(queue, boundary)|
  {
    var page := PageOf(queue, boundary, 1);
    var eligible := Above(queue, boundary);
    if eligible != [] {
      AboveHolds(queue, boundary, eligible[0]);
    }
    if page.next.Some? {
      NextLeavesLess(queue, boundary, 1);
      WalkByOnesAscends(queue, page.next);
      var rest := Walk(queue, page.next, 1);
      forall i | 0 <= i < |rest|
        ensures Past(boundary, rest[i]) && Less(page.items[0].OrderKey(), rest[i].OrderKey())
      {
        if boundary.Some? {
          KeyOrder(boundary.value, page.next.value, rest[i].OrderKey());
        }
      }
    }
  }

  predicate PagesShowQueue(visible: seq<Item>, limit: nat)
    requires limit >= 1
  {
    Walk(Sort(visible), None, limit) == Sort(visible)
  }

  /**
   Following the cursor from the start shows the whole visible queue once, in order, at every page size,
   exactly when no two visible items share an order key.
   */
  lemma PagesShowQueueOnce(visible: seq<Item>)
    ensures (forall limit :: 1 <= limit <= 100 ==> PagesShowQueue(visible, limit)) <==> DistinctKeys(visible)
  {
    SortIsStrict(visible);
    AboveFits(Sort(visible), None);
    if DistinctKeys(visible) {
      forall limit | 1 <= limit <= 100
        ensures PagesShowQueue(visible, limit)
      {
        WalkIsTheRest(Sort(visible), None, limit);
      }
    } else {
      WalkByOnesAscends(Sort(visible), None);
      assert !PagesShowQueue(visible, 1);
    }
  }

  // ---------------------------------------------------------------------------------------------
  // Pages while the queue changes
  // ---------------------------------------------------------------------------------------------

  /** One request of a visit: what is visible when it is made, and the page size it names. */
  datatype Request = Request(visible: seq<Item>, limit: nat)

  predicate Proper(requests: seq<Request>) {
    forall r :: 0 <= r < |requests| ==> requests[r].limit >= 1
  }

  /** Each request sees its own visible set and starts where the last page ended. */
  function Visit(requests: seq<Request>, boundary: Option<Key>): seq<Item>
    requires Proper(requests)
  {
    if requests == [] then []
    else
      var page := PageOf(Sort(requests[0].visible), boundary, requests[0].limit);
      page.items + if page.next.None? then [] else Visit(requests[1..], page.next)
  }

  /** The visit reaches a page without a next one. */
  predicate Finishes(requests: seq<Request>, boundary: Option<Key>)
    requires Proper(requests)
  {
    requests != [] &&
    var page := PageOf(Sort(requests[0].visible), boundary, requests[0].limit);
    page.next.None? || Finishes(requests[1..], page.next)
  }

  predicate AllDistinct(requests: seq<Request>) {
    forall r :: 0 <= r < |requests| ==> DistinctKeys(requests[r].visible)
  }

  lemma PageAscends(world: seq<Item>, boundary: Option<Key>, limit: nat)
    requires limit >= 1 && DistinctKeys(world)
    ensures var page := PageOf(Sort(world), boundary, limit);
            && StrictlyAscending(page.items)
            && (forall i :: 0 <= i < |page.items| ==> Past(boundary, page.items[i]))
            && (page.next.Some? ==> |page.items| == limit && page.items[limit - 1].OrderKey() == page.next.value)
  {
    SortIsStrict(world);
    AboveAscends(Sort(world), boundary);
    var page := PageOf(Sort(world), boundary, limit);
    forall i | 0 <= i < |page.items|
      ensures Past(boundary, page.items[i])
    {
      AboveHolds(Sort(world), boundary, Above(Sort(world), boundary)[i]);
    }
  }

  lemma JoinedAscends(a: seq<Item>, b: seq<Item>)
    requires a != [] && StrictlyAscending(a) && StrictlyAscending(b)
    requires forall i :: 0 <= i < |b| ==> Less(a[|a| - 1].OrderKey(), b[i].OrderKey())
    ensures StrictlyAscending(a + b)
  {
    var last := a[|a| - 1].OrderKey();
    forall i, j | 0 <= i < |a| && 0 <= j < |b|
      ensures Less(a[i].OrderKey(), b[j].OrderKey())
    {
      KeyOrder(a[i].OrderKey(), last, b[j].OrderKey());
    }
  }

  /** A page followed by what a visit shows past it. */
  lemma PageThenRest(visible: seq<Item>, boundary: Option<Key>, limit: nat, rest: seq<Item>)
    requires limit >= 1 && DistinctKeys(visible) && PageOf(Sort(visible), boundary, limit).next.Some?
    requires StrictlyAscending(rest)
    requires forall i :: 0 <= i < |rest| ==> Past(PageOf(Sort(visible), boundary, limit).next, rest[i])
    ensures StrictlyAscending(PageOf(Sort(visible), boundary, limit).items + rest)
    ensures forall i :: 0 <= i < |rest| ==> Past(boundary, rest[i])
  {
    var page := PageOf(Sort(visible), boundary, limit);
    PageAscends(visible, boundary, limit);
    JoinedAscends(page.items, rest);
    NextLeavesLess(Sort(visible), boundary, limit);
    forall i | 0 <= i < |rest|
      ensures Past(boundary, rest[i])
    {
      if boundary.Some? {
        KeyOrder(boundary.value, page.next.value, rest[i].OrderKey());
      }
    }
  }

  /** Across pages of a changing queue the keys only grow: no key is shown twice. */
  lemma {:induction false} VisitAscends(requests: seq<Request>, boundary: Option<Key>)
    requires Proper(requests) && AllDistinct(requests)
    ensures var shown := Visit(requests, boundary);
            StrictlyAscending(shown) && forall i :: 0 <= i < |shown| ==> Past(boundary, shown[i])
  {
    if requests != [] {
      PageAscends(requests[0].visible, boundary, requests[0].limit);
      var page := PageOf(Sort(requests[0].visible), boundary, requests[0].limit);
      if page.next.Some? {
        VisitAscends(requests[1..], page.next);
        PageThenRest(requests[0].visible, boundary, requests[0].limit, Visit(requests[1..], page.next));
      }
    }
  }

  /** An item past the boundary is on the page, or past where the next one starts. */
  lemma OnPageOrPast(visible: seq<Item>, boundary: Option<Key>, limit: nat, x: Item)
    requires limit >= 1 && DistinctKeys(visible) && x in visible && Past(boundary, x)
    ensures var page := PageOf(Sort(visible), boundary, limit);
            x in page.items || (page.next.Some? && Past(page.next, x))
  {
    var queue := Sort(visible);
    var eligible := Above(queue, boundary);
    SortPermutes(visible);
    assert x in multiset(queue);
    AboveHolds(queue, boundary, x);
    SortIsStrict(visible);
    AboveAscends(queue, boundary);
    var i :| 0 <= i < |eligible| && eligible[i] == x;
    if i >= limit {
      assert Less(eligible[limit - 1].OrderKey(), eligible[i].OrderKey());
    } else if |eligible| > limit {
      assert eligible[..limit][i] == x;
    }
  }

  /** An item that stays visible with the same key is missed by no finished visit. */
  lemma {:induction false} StableItemIsShown(requests: seq<Request>, boundary: Option<Key>, x: Item)
    requires Proper(requests) && AllDistinct(requests) && Finishes(requests, boundary) && Past(boundary, x)
    requires forall r :: 0 <= r < |requests| ==> x in requests[r].visible
    ensures x in Visit(requests, boundary)
  {
    var page := PageOf(Sort(requests[0].visible), boundary, requests[0].limit);
    OnPageOrPast(requests[0].visible, boundary, requests[0].limit, x);
    if x !in page.items {
      StableItemIsShown(requests[1..], page.next, x);
    }
  }

  lemma {:induction false} StrictCountsOnce(s: seq<Item>, x: Item)
    requires StrictlyAscending(s)
    ensures multiset(s)[x] <= 1
  {
    if s != [] {
      var n := |s| - 1;
      StrictCountsOnce(s[..n], x);
      assert s == s[..n] + [s[n]];
      if x in s[..n] && x == s[n] {
        KeyOrder(x.OrderKey(), x.OrderKey(), x.OrderKey());
      }
    }
  }

  /**
   Whatever other items come, go or move between requests, an item that stays with an unchanged key is
   shown exactly once by the time the cursor runs out.
   */
  lemma StableItemIsShownOnce(requests: seq<Request>, x: Item)
    requires Proper(requests) && AllDistinct(requests) && Finishes(requests, None)
    requires forall r :: 0 <= r < |requests| ==> x in requests[r].visible
    ensures multiset(Visit(requests, None))[x] == 1
  {
    VisitAscends(requests, None);
    StrictCountsOnce(Visit(requests, None), x);
    StableItemIsShown(requests, None, x);
    assert x in multiset(Visit(requests, None));
  }
}
