/** The page loops of server/service/backend/pchain/account.go (getAccountUTXOs) and
    server/service/backend/cchainatomictx/account.go (fetchCoinsFromChain). */
module UtxoPaging {
  import opened Rosetta

  /** Where the next page starts: the last address and UTXO seen. Both are zero for the first page. */
  datatype Cursor = Cursor(address: nat, utxo: nat)

  const START := Cursor(0, 0)

  datatype Page<+T> = Page(utxos: seq<T>, next: Cursor)

  /** A node that answers page requests; a failed request yields None. */
  type Server<!T> = Cursor -> Option<Page<T>>

  /** What a node promises: from a cursor on, the pages give everything in remaining and nothing outside it, possibly
      with repetitions, and after a full page the next cursor is further on. */
  ghost predicate Honest<T(!new)>(server: Server<T>, pageSize: nat, remaining: Cursor -> set<T>, rank: Cursor -> nat) {
    forall c :: HonestAt(server, pageSize, remaining, rank, c)
  }

  ghost predicate HonestAt<T(!new)>(server: Server<T>, pageSize: nat, remaining: Cursor -> set<T>, rank: Cursor -> nat, c: Cursor) {
    match server(c)
    case None => true
    case Some(page) =>
      var here := set u | u in page.utxos;
      if |page.utxos| < pageSize then here == remaining(c)
      else here <= remaining(c) <= here + remaining(page.next) && remaining(page.next) <= remaining(c) && rank(page.next) < rank(c)
  }

  /** The pages from a cursor on, one after the other; None when a request fails. */
  ghost function Pages<T(!new)>(server: Server<T>, pageSize: nat, remaining: Cursor -> set<T>, rank: Cursor -> nat, c: Cursor): Option<seq<T>>
    requires Honest(server, pageSize, remaining, rank)
    decreases rank(c)
  {
    assert HonestAt(server, pageSize, remaining, rank, c);
    match server(c)
    case None => None
    case Some(page) =>
      if |page.utxos| < pageSize then Some(page.utxos)
      else
        match Pages(server, pageSize, remaining, rank, page.next)
        case None => None
        case Some(rest) => Some(page.utxos + rest)
  }

  lemma {:induction false} PagesCover<T(!new)>(
    server: Server<T>, pageSize: nat, remaining: Cursor -> set<T>, rank: Cursor -> nat, c: Cursor)
    requires Honest(server, pageSize, remaining, rank)
    ensures var all := Pages(server, pageSize, remaining, rank, c);
      all.Some? ==> (set u | u in all.value) == remaining(c)
    decreases rank(c)
  {
    assert HonestAt(server, pageSize, remaining, rank, c);
    if server(c).Some? && |server(c).value.utxos| >= pageSize {
      var page := server(c).value;
      PagesCover(server, pageSize, remaining, rank, page.next);
      var rest := Pages(server, pageSize, remaining, rank, page.next);
      if rest.Some? {
        forall u ensures u in page.utxos + rest.value <==> u in remaining(c) {
          var here := set v | v in page.utxos;
          var there := set v | v in rest.value;
          assert u in here <==> u in page.utxos;
          assert u in there <==> u in rest.value;
        }
      }
    }
  }

  /** Main result: the loop ends, and unless a request fails it has fetched exactly what the node holds. */
  method FetchAll<T(!new)>(server: Server<T>, pageSize: nat, ghost remaining: Cursor -> set<T>, ghost rank: Cursor -> nat)
    returns (utxos: Option<seq<T>>)
    requires Honest(server, pageSize, remaining, rank)
    ensures utxos == Pages(server, pageSize, remaining, rank, START)
    ensures utxos.Some? ==> forall u :: u in utxos.value <==> u in remaining(START)
  {
    var all: seq<T>, cursor := [], START;
    ghost var target := Pages(server, pageSize, remaining, rank, START);
    PagesCover(server, pageSize, remaining, rank, START);
    assert target.Some? ==> [] + target.value == target.value;
    while true
      invariant
        match Pages(server, pageSize, remaining, rank, cursor)
        case None => target == None
        case Some(rest) => target == Some(all + rest)
      decreases rank(cursor)
    {
      assert HonestAt(server, pageSize, remaining, rank, cursor);
      var answer := server(cursor);
      if answer.None? {
        return None;
      }
      ghost var before := all;
      all := all + answer.value.utxos;
      assert forall rest: seq<T> :: all + rest == before + (answer.value.utxos + rest);
      if |answer.value.utxos| < pageSize {
        break;
      }
      cursor := answer.value.next;
    }
    ghost var whole := set u | u in all;
    assert forall u :: u in whole <==> u in all;
    utxos := Some(all);
  }

  // ----- when the loop ends, for any node whose answers depend on the cursor alone -----

  /** The loop between two turns: what it has gathered and where it continues. */
  datatype Loop<T> = Running(all: seq<T>, cursor: Cursor) | Done(all: seq<T>) | Broken

  function Turn<T>(server: Server<T>, pageSize: nat, s: Loop<T>): Loop<T> {
    match s
    case Running(all, cursor) =>
      (match server(cursor)
       case None => Broken
       case Some(page) =>
         if |page.utxos| < pageSize then Done(all + page.utxos) else Running(all + page.utxos, page.next))
    case _ => s
  }

  /** The loop after n turns. */
  function After<T>(server: Server<T>, pageSize: nat, n: nat): Loop<T> {
    if n == 0 then Running([], START) else Turn(server, pageSize, After(server, pageSize, n - 1))
  }

  lemma {:induction false} RanBefore<T>(server: Server<T>, pageSize: nat, k: nat, n: nat)
    requires k <= n && After(server, pageSize, n).Running?
    ensures After(server, pageSize, k).Running?
  {
    if k < n {
      RanBefore(server, pageSize, k, n - 1);
    }
  }

  /** The same cursor is asked for in two turns. */
  ghost predicate AsksAgain<T>(server: Server<T>, pageSize: nat, i: nat, j: nat) {
    && i < j && After(server, pageSize, i).Running? && After(server, pageSize, j).Running?
    && After(server, pageSize, i).cursor == After(server, pageSize, j).cursor
  }

  /** From a repeated cursor on, the turns repeat. */
  lemma {:induction false} TurnsRepeat<T>(server: Server<T>, pageSize: nat, i: nat, j: nat, n: nat)
    requires AsksAgain(server, pageSize, i, j)
    ensures After(server, pageSize, j + n).Running? <==> After(server, pageSize, i + n).Running?
    ensures After(server, pageSize, i + n).Running? ==>
      After(server, pageSize, j + n).cursor == After(server, pageSize, i + n).cursor
  {
    if n > 0 {
      TurnsRepeat(server, pageSize, i, j, n - 1);
    }
  }

  lemma {:induction false} RepeatRunsForever<T>(server: Server<T>, pageSize: nat, i: nat, j: nat, n: nat)
    requires AsksAgain(server, pageSize, i, j)
    ensures After(server, pageSize, n).Running?
    decreases n
  {
    if n <= j {
      RanBefore(server, pageSize, n, j);
    } else {
      RepeatRunsForever(server, pageSize, i, j, i + (n - j));
      TurnsRepeat(server, pageSize, i, j, n - j);
    }
  }

  /** The cursors asked for in the first n turns. */
  ghost function Asked<T>(server: Server<T>, pageSize: nat, n: nat): set<Cursor> {
    if n == 0 then {}
    else
      Asked(server, pageSize, n - 1) +
      if After(server, pageSize, n - 1).Running? then {After(server, pageSize, n - 1).cursor} else {}
  }

  /** Turn k asks for the cursor. */
  ghost predicate AsksFor<T>(server: Server<T>, pageSize: nat, k: nat, c: Cursor) {
    After(server, pageSize, k).Running? && After(server, pageSize, k).cursor == c
  }

  lemma {:induction false} AskedAreAskedFor<T>(server: Server<T>, pageSize: nat, n: nat)
    ensures forall c <- Asked(server, pageSize, n) :: exists k :: 0 <= k < n && AsksFor(server, pageSize, k, c)
  {
    hide After;
    if n > 0 {
      AskedAreAskedFor(server, pageSize, n - 1);
      forall c | c in Asked(server, pageSize, n) ensures exists k :: 0 <= k < n && AsksFor(server, pageSize, k, c) {
        if c in Asked(server, pageSize, n - 1) {
          var k: nat :| k < n - 1 && AsksFor(server, pageSize, k, c);
        } else {
          assert AsksFor(server, pageSize, n - 1, c);
        }
      }
    }
  }

  lemma NewCursor<T>(server: Server<T>, pageSize: nat, n: nat)
    requires forall k :: 0 <= k < n ==> !AsksAgain(server, pageSize, k, n)
    requires After(server, pageSize, n).Running?
    ensures After(server, pageSize, n).cursor !in Asked(server, pageSize, n)
  {
    hide After, Asked;
    AskedAreAskedFor(server, pageSize, n);
    var c := After(server, pageSize, n).cursor;
    forall k | 0 <= k < n ensures !AsksFor(server, pageSize, k, c) {
      assert !AsksAgain(server, pageSize, k, n);
    }
  }

  lemma {:induction false} AskedAreDistinct<T>(server: Server<T>, pageSize: nat, n: nat)
    requires forall i, j :: !AsksAgain(server, pageSize, i, j)
    requires forall k :: 0 <= k < n ==> After(server, pageSize, k).Running?
    ensures |Asked(server, pageSize, n)| == n
  {
    hide After, AsksAgain;
    if n > 0 {
      AskedAreDistinct(server, pageSize, n - 1);
      NewCursor(server, pageSize, n - 1);
    }
  }

  lemma SmallerSet<T>(a: set<T>, b: set<T>)
    requires a <= b
    ensures |a| <= |b|
  {
    assert b == a + (b - a);
  }

  /** Main result: against a node that answers a cursor always alike and has finitely many cursors to give out, the loop
      ends exactly when it is never sent back to a cursor it has asked for. A node that answers a repeated cursor
      differently may still end it. */
  lemma LoopEndsIff<T>(server: Server<T>, pageSize: nat, cursors: set<Cursor>)
    requires START in cursors
    requires forall c <- cursors :: server(c).Some? ==> server(c).value.next in cursors
    ensures (exists n: nat :: !After(server, pageSize, n).Running?) <==> forall i, j :: !AsksAgain(server, pageSize, i, j)
  {
    if i, j :| AsksAgain(server, pageSize, i, j) {
      forall n: nat ensures After(server, pageSize, n).Running? {
        RepeatRunsForever(server, pageSize, i, j, n);
      }
    } else {
      var n := |cursors| + 1;
      if After(server, pageSize, n).Running? {
        forall k | 0 <= k < n ensures After(server, pageSize, k).Running? {
          RanBefore(server, pageSize, k, n);
        }
        AskedAreDistinct(server, pageSize, n);
        AskedAmong(server, pageSize, cursors, n);
        SmallerSet(Asked(server, pageSize, n), cursors);
      }
      assert !After(server, pageSize, n).Running?;
    }
  }

  lemma {:induction false} AskedAmong<T>(server: Server<T>, pageSize: nat, cursors: set<Cursor>, n: nat)
    requires START in cursors
    requires forall c <- cursors :: server(c).Some? ==> server(c).value.next in cursors
    ensures Asked(server, pageSize, n) <= cursors
    ensures After(server, pageSize, n).Running? ==> After(server, pageSize, n).cursor in cursors
  {
    if n > 0 {
      AskedAmong(server, pageSize, cursors, n - 1);
    }
  }

  /** From a cursor of an honest node on, the loop gathers the pages, or breaks off when a request fails. */
  lemma {:induction false} LoopGathers<T(!new)>(server: Server<T>, pageSize: nat, remaining: Cursor -> set<T>, rank: Cursor -> nat,
                                                k: nat, all: seq<T>, c: Cursor) returns (n: nat)
    requires Honest(server, pageSize, remaining, rank) && After(server, pageSize, k) == Running(all, c)
    ensures After(server, pageSize, n) ==
      match Pages(server, pageSize, remaining, rank, c)
      case None => Broken
      case Some(rest) => Done(all + rest)
    decreases rank(c)
  {
    assert HonestAt(server, pageSize, remaining, rank, c);
    assert After(server, pageSize, k + 1) == Turn(server, pageSize, Running(all, c));
    n := k + 1;
    if server(c).Some? && |server(c).value.utxos| >= pageSize {
      var page := server(c).value;
      n := LoopGathers(server, pageSize, remaining, rank, k + 1, all + page.utxos, page.next);
      var rest := Pages(server, pageSize, remaining, rank, page.next);
      assert rest.Some? ==> all + page.utxos + rest.value == all + (page.utxos + rest.value);
    }
  }

  /** Partner: against an honest node this loop ends with what FetchAll gives. */
  lemma LoopIsFetchAll<T(!new)>(server: Server<T>, pageSize: nat, remaining: Cursor -> set<T>, rank: Cursor -> nat) returns (n: nat)
    requires Honest(server, pageSize, remaining, rank)
    ensures After(server, pageSize, n) ==
      match Pages(server, pageSize, remaining, rank, START)
      case None => Broken
      case Some(all) => Done(all)
  {
    n := LoopGathers(server, pageSize, remaining, rank, 0, [], START);
    var pages := Pages(server, pageSize, remaining, rank, START);
    assert pages.Some? ==> [] + pages.value == pages.value;
  }
}
