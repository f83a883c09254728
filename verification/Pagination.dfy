/**
  Offset pages over the active rows of a scope. Every page is its own query, and a
  query may meet the table's rows in any order; `ORDER BY` alone fixes the result.
 */
module Pagination {
  import opened Wrappers

  type Time = int

  datatype ConversationRow = ConversationRow(id: nat, user: nat, deletedAt: Option<Time>, lastMessageAt: Option<Time>)

  datatype MessageRow = MessageRow(id: nat, conversation: nat, sequence: int, deletedAt: Option<Time>)

  datatype Page<R> = Page(items: seq<R>, nextOffset: Option<nat>)

  datatype ValueError = NegativeOffset | LimitOutOfRange

  // ---------------------------------------------------------------- ordered selection

  function Select<R>(active: R -> bool, rows: seq<R>): seq<R> {
    if rows == [] then [] else (if active(rows[0]) then [rows[0]] else []) + Select(active, rows[1..])
  }

  function Insert<R>(before: (R, R) -> bool, row: R, rows: seq<R>): seq<R> {
    if rows == [] || before(row, rows[0]) then [row] + rows else [rows[0]] + Insert(before, row, rows[1..])
  }

  function OrderBy<R>(before: (R, R) -> bool, rows: seq<R>): seq<R> {
    if rows == [] then [] else Insert(before, rows[0], OrderBy(before, rows[1..]))
  }

  /** The ordered active rows. */
  function Listing<R>(active: R -> bool, before: (R, R) -> bool, table: seq<R>): seq<R> {
    OrderBy(before, Select(active, table))
  }

  /** `before` is a strict order that separates any two different rows of the set. */
  ghost predicate Separates<R(!new)>(before: (R, R) -> bool, rows: set<R>) {
    && (forall a | a in rows :: !before(a, a))
    && (forall a, b | a in rows && b in rows && a != b :: before(a, b) || before(b, a))
    && (forall a, b, c | a in rows && b in rows && c in rows && before(a, b) && before(b, c) :: before(a, c))
  }

  ghost predicate Ordered<R(!new)>(before: (R, R) -> bool, rows: seq<R>) {
    forall i, j | 0 <= i < j < |rows| :: before(rows[i], rows[j])
  }

  ghost predicate Distinct<R(!new)>(rows: seq<R>) {
    forall i, j | 0 <= i < j < |rows| :: rows[i] != rows[j]
  }

  ghost function Elements<R(!new)>(rows: seq<R>): set<R> {
    set r | r in rows
  }

  lemma {:induction false} SelectKeeps<R(!new)>(active: R -> bool, rows: seq<R>)
    requires Distinct(rows)
    ensures Distinct(Select(active, rows))
    ensures forall r :: r in Select(active, rows) <==> r in rows && active(r)
  {
    if rows != [] {
      DistinctTail(rows);
      SelectKeeps(active, rows[1..]);
      assert rows == [rows[0]] + rows[1..];
    }
  }

  lemma OrderedTail<R(!new)>(before: (R, R) -> bool, rows: seq<R>)
    requires rows != [] && Ordered(before, rows)
    ensures Ordered(before, rows[1..])
  {
    forall i, j | 0 <= i < j < |rows| - 1 ensures before(rows[1..][i], rows[1..][j]) {
      assert before(rows[i + 1], rows[j + 1]);
    }
  }

  lemma DistinctTail<R(!new)>(rows: seq<R>)
    requires rows != [] && Distinct(rows)
    ensures Distinct(rows[1..]) && rows[0] !in rows[1..]
  {
    forall i, j | 0 <= i < j < |rows| - 1 ensures rows[1..][i] != rows[1..][j] {
      assert rows[i + 1] != rows[j + 1];
    }
  }

  lemma {:induction false} InsertKeeps<R(!new)>(before: (R, R) -> bool, row: R, rows: seq<R>, all: set<R>)
    requires Separates(before, all) && row in all && row !in rows && forall r | r in rows :: r in all
    requires Ordered(before, rows)
    ensures Ordered(before, Insert(before, row, rows))
    ensures forall r :: r in Insert(before, row, rows) <==> r == row || r in rows
  {
    if rows == [] {
    } else if before(row, rows[0]) {
      var result := [row] + rows;
      forall i, j | 0 <= i < j < |result| ensures before(result[i], result[j]) {
        if i == 0 && j > 1 {
          assert before(rows[0], rows[j - 1]);
        }
      }
    } else {
      assert before(rows[0], row);
      assert rows == [rows[0]] + rows[1..];
      OrderedTail(before, rows);
      InsertKeeps(before, row, rows[1..], all);
      var rest := Insert(before, row, rows[1..]);
      forall i, j | 0 <= i < j < |rest| + 1 ensures before(([rows[0]] + rest)[i], ([rows[0]] + rest)[j]) {
        if i == 0 {
          var r := rest[j - 1];
          assert r in rest;
          if r != row {
            var k :| 0 <= k < |rows[1..]| && rows[1..][k] == r;
            assert before(rows[0], rows[k + 1]);
          }
        }
      }
    }
  }

  lemma {:induction false} OrderByKeeps<R(!new)>(before: (R, R) -> bool, rows: seq<R>, all: set<R>)
    requires Separates(before, all) && Distinct(rows) && forall r | r in rows :: r in all
    ensures Ordered(before, OrderBy(before, rows))
    ensures forall r :: r in OrderBy(before, rows) <==> r in rows
  {
    if rows != [] {
      assert rows == [rows[0]] + rows[1..];
      DistinctTail(rows);
      OrderByKeeps(before, rows[1..], all);
      InsertKeeps(before, rows[0], OrderBy(before, rows[1..]), all);
    }
  }

  /** The rows a listing shows: each active row once, in order. */
  ghost predicate Lists<R(!new)>(active: R -> bool, before: (R, R) -> bool, table: seq<R>, listing: seq<R>) {
    && Ordered(before, listing)
    && (forall r :: r in listing <==> r in table && active(r))
  }

  lemma ListingLists<R(!new)>(active: R -> bool, before: (R, R) -> bool, table: seq<R>)
    requires Distinct(table) && Separates(before, Elements(Select(active, table)))
    ensures Lists(active, before, table, Listing(active, before, table))
  {
    SelectKeeps(active, table);
    OrderByKeeps(before, Select(active, table), Elements(Select(active, table)));
  }

  lemma HasMember<R(!new)>(rows: seq<R>)
    ensures rows != [] ==> exists r :: r in rows
  {
    assert rows != [] ==> rows[0] in rows;
  }

  lemma FirstIsLeast<R(!new)>(before: (R, R) -> bool, rows: seq<R>, r: R)
    requires Ordered(before, rows) && r in rows
    ensures r == rows[0] || before(rows[0], r)
  {
    var i :| 0 <= i < |rows| && rows[i] == r;
  }

  lemma {:induction false} OneOrder<R(!new)>(before: (R, R) -> bool, a: seq<R>, b: seq<R>, all: set<R>)
    requires Separates(before, all) && forall r | r in a :: r in all
    requires Ordered(before, a) && Ordered(before, b) && forall r :: r in a <==> r in b
    ensures a == b
    decreases |a|
  {
    if a == [] {
      HasMember(b);
    } else {
      HasMember(b);
      assert a[0] in b && b[0] in a;
      FirstIsLeast(before, a, b[0]);
      FirstIsLeast(before, b, a[0]);
      OrderedTail(before, a);
      OrderedTail(before, b);
      forall r ensures r in a[1..] <==> r in b[1..] {
        TailHas(before, a, r);
        TailHas(before, b, r);
      }
      OneOrder(before, a[1..], b[1..], all);
      assert a == [a[0]] + a[1..] && b == [b[0]] + b[1..];
    }
  }

  lemma TailHas<R(!new)>(before: (R, R) -> bool, rows: seq<R>, r: R)
    requires rows != [] && Ordered(before, rows) && !before(rows[0], rows[0])
    ensures r in rows[1..] <==> r in rows && r != rows[0]
  {
    assert rows == [rows[0]] + rows[1..];
    if r in rows[1..] {
      var k :| 0 <= k < |rows[1..]| && rows[1..][k] == r;
      assert before(rows[0], rows[k + 1]);
    }
  }

  /** The order in which a query meets the rows does not matter. */
  lemma ListingIsFixed<R(!new)>(active: R -> bool, before: (R, R) -> bool, table: seq<R>, again: seq<R>)
    requires Distinct(table) && Distinct(again) && forall r :: r in table <==> r in again
    requires Separates(before, Elements(Select(active, table)))
    ensures Listing(active, before, table) == Listing(active, before, again)
  {
    SelectKeeps(active, table);
    SelectKeeps(active, again);
    assert Elements(Select(active, table)) == Elements(Select(active, again));
    ListingLists(active, before, table);
    ListingLists(active, before, again);
    OneOrder(before, Listing(active, before, table), Listing(active, before, again), Elements(Select(active, table)));
  }

  // ---------------------------------------------------------------- pages

  /** The rows from an offset on, at most `count` of them. */
  function Slice<R>(rows: seq<R>, offset: nat, count: nat): seq<R> {
    if |rows| <= offset then [] else if |rows| - offset <= count then rows[offset..] else rows[offset..offset + count]
  }

  /** A page by counting: the next offset is given exactly when rows remain. */
  function PageAt<R>(rows: seq<R>, offset: nat, limit: nat): Page<R> {
    Page(Slice(rows, offset, limit), if offset + limit < |rows| then Some(offset + limit) else None)
  }

  predicate ValidPagination(offset: int, limit: int) {
    offset >= 0 && 1 <= limit <= 100
  }

  /** One query with a sentinel row instead of a count. */
  method GetPage<R>(rows: seq<R>, offset: int, limit: int) returns (page: Result<Page<R>, ValueError>)
    ensures page == if ValidPagination(offset, limit) then Ok(PageAt(rows, offset, limit))
                    else Err(if offset < 0 then NegativeOffset else LimitOutOfRange)
    ensures page.Ok? <==> offset >= 0 && 1 <= limit <= 100
    ensures page.Ok? ==>
              && |page.value.items| == (if |rows| <= offset then 0 else if |rows| - offset <= limit then |rows| - offset
                                        else limit)
              && (forall i | 0 <= i < |page.value.items| :: page.value.items[i] == rows[offset + i])
              && page.value.nextOffset == (if offset + limit < |rows| then Some(offset + limit) else None)
  {
    if offset < 0 {
      return Err(NegativeOffset);
    }
    if !(1 <= limit <= 100) {
      return Err(LimitOutOfRange);
    }
    var items := Slice(rows, offset, limit + 1);
    var hasMore := |items| > limit;
    assert hasMore ==> items[..limit] == rows[offset..offset + limit];
    return Ok(Page(if hasMore then items[..limit] else items, if hasMore then Some(offset + limit) else None));
  }

  /** Following `next_offset`. Each page is a new query; `queries(page)` is the ordered set as that query sees it. */
  function Walk<R>(queries: nat -> seq<R>, size: nat, page: nat, offset: nat, limit: nat): (pages: seq<seq<R>>)
    requires limit >= 1
    requires forall k: nat :: |queries(k)| == size
    decreases size - offset
  {
    var result := PageAt(queries(page), offset, limit);
    if result.nextOffset.None? then [result.items]
    else [result.items] + Walk(queries, size, page + 1, result.nextOffset.value, limit)
  }

  function Flatten<R>(pages: seq<seq<R>>): seq<R> {
    if pages == [] then [] else pages[0] + Flatten(pages[1..])
  }

  /** Full pages, then a last one that is not empty unless it is the only page. */
  ghost predicate WellPaged<R>(pages: seq<seq<R>>, limit: nat) {
    && pages != []
    && (forall i | 0 <= i < |pages| - 1 :: |pages[i]| == limit)
    && |pages[|pages| - 1]| <= limit
    && (|pages| > 1 ==> pages[|pages| - 1] != [])
  }

  lemma WalkStep<R>(queries: nat -> seq<R>, listing: seq<R>, page: nat, offset: nat, limit: nat)
    requires limit >= 1 && forall k: nat :: queries(k) == listing
    ensures var items := Slice(listing, offset, limit);
            Walk(queries, |listing|, page, offset, limit)
            == if offset + limit < |listing|
              then [items] + Walk(queries, |listing|, page + 1, offset + limit, limit) else [items]
  {
    assert queries(page) == listing;
  }

  /** The pages from an offset on show the rows from there on. */
  ghost predicate Shown<R>(pages: seq<seq<R>>, rows: seq<R>, limit: nat) {
    Flatten(pages) == rows && WellPaged(pages, limit) && (rows != [] ==> pages[0] != [])
  }

  lemma PagePrepended<R>(page: seq<R>, rest: seq<seq<R>>, rows: seq<R>, limit: nat)
    requires Shown(rest, rows, limit) && rows != [] && |page| == limit >= 1
    ensures Shown([page] + rest, page + rows, limit)
  {
    assert ([page] + rest)[1..] == rest;
  }

  lemma OnePage<R>(page: seq<R>, limit: nat)
    requires |page| <= limit
    ensures Shown([page], page, limit)
  {
    assert [page][1..] == [];
  }

  lemma SliceSplits<R>(rows: seq<R>, offset: nat, limit: nat)
    requires limit >= 1 && offset <= |rows|
    ensures offset + limit < |rows| ==>
              |Slice(rows, offset, limit)| == limit
                && Slice(rows, offset, limit) + rows[offset + limit..] == rows[offset..]
    ensures offset + limit >= |rows| ==> Slice(rows, offset, limit) == rows[offset..] && |rows[offset..]| <= limit
  {
  }

  lemma {:induction false} WalkFrom<R>(queries: nat -> seq<R>, listing: seq<R>, page: nat, offset: nat, limit: nat)
    requires limit >= 1 && offset <= |listing| && forall k: nat :: queries(k) == listing
    ensures Shown(Walk(queries, |listing|, page, offset, limit), listing[offset..], limit)
    decreases |listing| - offset
  {
    SliceSplits(listing, offset, limit);
    WalkStep(queries, listing, page, offset, limit);
    if offset + limit < |listing| {
      WalkFrom(queries, listing, page + 1, offset + limit, limit);
      var rest := Walk(queries, |listing|, page + 1, offset + limit, limit);
      PagePrepended(Slice(listing, offset, limit), rest, listing[offset + limit..], limit);
    } else {
      OnePage(Slice(listing, offset, limit), limit);
    }
  }

  /** The query numbered `k` meets the rows in the order of the scan numbered `k`. */
  function Queries<R>(active: R -> bool, before: (R, R) -> bool, scans: nat -> seq<R>): nat -> seq<R> {
    (k: nat) => Listing(active, before, scans(k))
  }

  /**
    For a fixed row set, the walk from offset 0 shows exactly the ordered active rows, each once, whatever order
    each query scans the table in; only an empty set gives an empty page.
   */
  lemma WalkShowsListing<R(!new)>(active: R -> bool, before: (R, R) -> bool, table: seq<R>, scans: nat -> seq<R>,
                                  limit: nat)
    requires limit >= 1 && Distinct(table) && Separates(before, Elements(Select(active, table)))
    requires forall k: nat :: Distinct(scans(k)) && forall r :: r in table <==> r in scans(k)
    ensures Lists(active, before, table, Listing(active, before, table))
    ensures forall k: nat :: Queries(active, before, scans)(k) == Listing(active, before, table)
    ensures var pages := Walk(Queries(active, before, scans), |Listing(active, before, table)|, 0, 0, limit);
            Flatten(pages) == Listing(active, before, table) && WellPaged(pages, limit)
  {
    assert Listing(active, before, table)[0..] == Listing(active, before, table);
    ListingLists(active, before, table);
    forall k: nat ensures Queries(active, before, scans)(k) == Listing(active, before, table) {
      ListingIsFixed(active, before, table, scans(k));
    }
    WalkFrom(Queries(active, before, scans), Listing(active, before, table), 0, 0, limit);
  }

  // ---------------------------------------------------------------- conversations and messages

  function OwnedBy(user: nat): ConversationRow -> bool {
    (row: ConversationRow) => row.user == user && row.deletedAt.None?
  }

  /** Most recent first, conversations without messages last, then by descending id. */
  function MoreRecent(): (ConversationRow, ConversationRow) -> bool {
    (a: ConversationRow, b: ConversationRow) =>
      if a.lastMessageAt == b.lastMessageAt then a.id > b.id
      else a.lastMessageAt.Some? && (b.lastMessageAt.None? || a.lastMessageAt.value > b.lastMessageAt.value)
  }

  function InConversation(conversation: nat): MessageRow -> bool {
    (row: MessageRow) => row.conversation == conversation && row.deletedAt.None?
  }

  function BySequence(): (MessageRow, MessageRow) -> bool {
    (a: MessageRow, b: MessageRow) => a.sequence < b.sequence
  }

  lemma MoreRecentIsAnOrder(a: ConversationRow, b: ConversationRow, c: ConversationRow)
    ensures !MoreRecent()(a, a)
    ensures a.id != b.id ==> MoreRecent()(a, b) || MoreRecent()(b, a)
    ensures MoreRecent()(a, b) && MoreRecent()(b, c) ==> MoreRecent()(a, c)
  {
  }

  ghost predicate KeyedById(rows: set<ConversationRow>) {
    forall a, b | a in rows && b in rows && a.id == b.id :: a == b
  }

  lemma MoreRecentSeparates(rows: set<ConversationRow>)
    requires KeyedById(rows)
    ensures Separates(MoreRecent(), rows)
  {
    var before := MoreRecent();
    forall a, b, c | a in rows && b in rows && c in rows
      ensures !before(a, a) && (a != b ==> before(a, b) || before(b, a)) && (before(a, b) && before(b, c) ==>
          before(a, c))
    {
      MoreRecentIsAnOrder(a, b, c);
      assert a != b ==> a.id != b.id;
    }
  }

  /** The primary key makes the history order total. */
  lemma HistoryOrderSeparates(rows: seq<ConversationRow>, user: nat)
    requires forall i, j | 0 <= i < j < |rows| :: rows[i].id != rows[j].id
    ensures Distinct(rows) && Separates(MoreRecent(), Elements(Select(OwnedBy(user), rows)))
  {
    SelectKeeps(OwnedBy(user), rows);
    MoreRecentSeparates(Elements(Select(OwnedBy(user), rows)));
  }

  /** The unique index on conversation and sequence makes the transcript order total. */
  lemma TranscriptOrderSeparates(rows: seq<MessageRow>, conversation: nat)
    requires forall i, j | 0 <= i < j < |rows| ::
        rows[i].conversation != rows[j].conversation || rows[i].sequence != rows[j].sequence
    ensures Distinct(rows) && Separates(BySequence(), Elements(Select(InConversation(conversation), rows)))
  {
    SelectKeeps(InConversation(conversation), rows);
  }

  /** One conversation is more recent than another: a later last message, or one at all; then the greater id. */
  predicate Later(a: ConversationRow, b: ConversationRow) {
    match (a.lastMessageAt, b.lastMessageAt)
    case (Some(at), Some(other)) => at > other || (at == other && a.id > b.id)
    case (Some(_), None) => true
    case (None, Some(_)) => false
    case (None, None) => a.id > b.id
  }

  /**
    Walking a user's history shows exactly that user's conversations that are not deleted, each once, the most recent
    first and those without messages last.
   */
  lemma HistoryWalk(rows: seq<ConversationRow>, user: nat, scans: nat -> seq<ConversationRow>, size: nat, limit: nat)
    requires limit >= 1 && forall i, j | 0 <= i < j < |rows| :: rows[i].id != rows[j].id
    requires forall k: nat :: Distinct(scans(k)) && forall r :: r in rows <==> r in scans(k)
    requires size == |Listing(OwnedBy(user), MoreRecent(), rows)|
    ensures forall k: nat :: |Queries(OwnedBy(user), MoreRecent(), scans)(k)| == size
    ensures var shown := Flatten(Walk(Queries(OwnedBy(user), MoreRecent(), scans), size, 0, 0, limit));
            && (forall r :: r in shown <==> r in rows && r.user == user && r.deletedAt == None)
            && (forall i, j | 0 <= i < j < |shown| :: Later(shown[i], shown[j]))
  {
    HistoryOrderSeparates(rows, user);
    WalkShowsListing(OwnedBy(user), MoreRecent(), rows, scans, limit);
    SelectKeeps(OwnedBy(user), rows);
    var shown := Listing(OwnedBy(user), MoreRecent(), rows);
    forall i, j | 0 <= i < j < |shown|
      ensures Later(shown[i], shown[j])
    {
      assert MoreRecent()(shown[i], shown[j]);
    }
  }

  /** Walking a transcript shows exactly the conversation's messages that are not deleted, by ascending sequence. */
  lemma TranscriptWalk(rows: seq<MessageRow>, conversation: nat, scans: nat -> seq<MessageRow>, size: nat, limit: nat)
    requires limit >= 1
    requires forall i, j | 0 <= i < j < |rows| ::
        rows[i].conversation != rows[j].conversation || rows[i].sequence != rows[j].sequence
    requires forall k: nat :: Distinct(scans(k)) && forall r :: r in rows <==> r in scans(k)
    requires size == |Listing(InConversation(conversation), BySequence(), rows)|
    ensures forall k: nat :: |Queries(InConversation(conversation), BySequence(), scans)(k)| == size
    ensures var shown := Flatten(Walk(Queries(InConversation(conversation), BySequence(), scans), size, 0, 0, limit));
            && (forall r :: r in shown <==> r in rows && r.conversation == conversation && r.deletedAt == None)
            && (forall i, j | 0 <= i < j < |shown| :: shown[i].sequence < shown[j].sequence)
  {
    TranscriptOrderSeparates(rows, conversation);
    WalkShowsListing(InConversation(conversation), BySequence(), rows, scans, limit);
    SelectKeeps(InConversation(conversation), rows);
    var shown := Listing(InConversation(conversation), BySequence(), rows);
    forall i, j | 0 <= i < j < |shown|
      ensures shown[i].sequence < shown[j].sequence
    {
      assert BySequence()(shown[i], shown[j]);
    }
  }

  /** An active message of the conversation has this sequence. */
  ghost predicate Has(rows: seq<MessageRow>, conversation: nat, sequence: int) {
    exists r | r in rows :: InConversation(conversation)(r) && r.sequence == sequence
  }

  ghost predicate Shows(listing: seq<MessageRow>, sequence: int) {
    exists r | r in listing :: r.sequence == sequence
  }

  lemma {:induction false} OrderedSequences(listing: seq<MessageRow>, latest: nat, n: nat)
    requires Ordered(BySequence(), listing) && n <= latest && n <= |listing|
    requires forall r | r in listing :: 1 <= r.sequence <= latest
    requires forall s | 1 <= s <= latest :: Shows(listing, s)
    ensures forall k | 0 <= k < n :: listing[k].sequence == k + 1
    decreases n
  {
    if n > 0 {
      OrderedSequences(listing, latest, n - 1);
      assert Shows(listing, n);
      var r :| r in listing && r.sequence == n;
      var at :| 0 <= at < |listing| && listing[at] == r;
      assert listing[n - 1] in listing;
      assert n >= 2 ==> BySequence()(listing[n - 2], listing[n - 1]);
      assert at >= n ==> BySequence()(listing[n - 1], listing[at]);
    }
  }

  lemma {:induction false} Climbs(listing: seq<MessageRow>, k: nat)
    requires Ordered(BySequence(), listing) && k < |listing|
    requires forall r | r in listing :: r.sequence >= 1
    ensures listing[k].sequence >= k + 1
    decreases k
  {
    if k > 0 {
      Climbs(listing, k - 1);
      assert BySequence()(listing[k - 1], listing[k]);
    } else {
      assert listing[0] in listing;
    }
  }

  /** A transcript without gaps, in order, has `latest` messages. */
  lemma GaplessListing(listing: seq<MessageRow>, latest: nat)
    requires Ordered(BySequence(), listing)
    requires forall r | r in listing :: 1 <= r.sequence <= latest
    requires forall s | 1 <= s <= latest :: Shows(listing, s)
    ensures |listing| == latest && forall k | 0 <= k < latest :: listing[k].sequence == k + 1
  {
    if listing != [] {
      Climbs(listing, |listing| - 1);
      assert listing[|listing| - 1] in listing;
    }
    OrderedSequences(listing, latest, |listing|);
    if latest > 0 {
      assert Shows(listing, latest);
      var r :| r in listing && r.sequence == latest;
      var at :| 0 <= at < |listing| && listing[at] == r;
    }
  }

  /** Paging a gapless transcript gives its messages in order: the one shown at place k has sequence k + 1. */
  lemma PagedTranscript(rows: seq<MessageRow>,
                        scans: nat -> seq<MessageRow>, conversation: nat, latest: nat, limit: nat)
    requires limit >= 1
    requires forall i, j | 0 <= i < j < |rows| ::
        rows[i].conversation != rows[j].conversation || rows[i].sequence != rows[j].sequence
    requires forall k: nat :: Distinct(scans(k)) && forall r :: r in rows <==> r in scans(k)
    requires forall r | r in rows && InConversation(conversation)(r) :: 1 <= r.sequence <= latest
    requires forall s | 1 <= s <= latest :: Has(rows, conversation, s)
    ensures forall k: nat :: |Queries(InConversation(conversation), BySequence(), scans)(k)| == latest
    ensures var shown := Flatten(Walk(Queries(InConversation(conversation), BySequence(), scans), latest, 0, 0, limit));
            |shown| == latest && forall k | 0 <= k < latest :: shown[k].sequence == k + 1
  {
    TranscriptOrderSeparates(rows, conversation);
    var active, before := InConversation(conversation), BySequence();
    WalkShowsListing(active, before, rows, scans, limit);
    var listing := Listing(active, before, rows);
    forall s | 1 <= s <= latest ensures Shows(listing, s) {
      assert Has(rows, conversation, s);
      var r :| r in rows && active(r) && r.sequence == s;
      assert r in listing;
    }
    GaplessListing(listing, latest);
  }
}
