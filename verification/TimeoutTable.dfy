/** The table of timers that `poll` checks, and what a client that resets them sees. */
module TimeoutTable {
  import opened Common
  import opened Types
  import opened Machine

  const ALL: seq<TimeoutType> := [Sequence, Performance, OngoingTimer, TimeoutType.Contactor]

  function Index(t: TimeoutType): (i: nat)
    ensures i < 4 && ALL[i] == t
  {
    match t
    case Sequence => 0
    case Performance => 1
    case OngoingTimer => 2
    case Contactor => 3
  }

  /** A reached timer, as `check` collects it. */
  datatype Entry = Entry(deadline: nat, timer: TimeoutType)

  // --------------------------------------------------------------- an ordered map

  predicate Increasing(entries: seq<Entry>) {
    forall i, j | 0 <= i < j < |entries| :: entries[i].deadline < entries[j].deadline
  }

  predicate HasDeadline(entries: seq<Entry>, deadline: nat) {
    exists e <- entries :: e.deadline == deadline
  }

  /** `std::map::insert`: in the order of the keys, and only if the key is not there yet. */
  function Insert(entries: seq<Entry>, e: Entry): (r: seq<Entry>)
    requires Increasing(entries)
    ensures Increasing(r) && r != []
    ensures forall i | 0 <= i < |r| :: r[i] in entries || r[i] == e
  {
    if entries == [] || e.deadline < entries[0].deadline then [e] + entries
    else if e.deadline == entries[0].deadline then entries
    else [entries[0]] + Insert(entries[1..], e)
  }

  lemma {:induction false} InsertKeeps(entries: seq<Entry>, e: Entry)
    requires Increasing(entries)
    ensures forall x <- entries :: x in Insert(entries, e)
    ensures e in Insert(entries, e) || HasDeadline(entries, e.deadline)
  {
    if entries != [] && e.deadline > entries[0].deadline {
      InsertKeeps(entries[1..], e);
      assert entries == [entries[0]] + entries[1..];
    }
  }

  // ------------------------------------------------------------ what is due

  /** The four optional deadlines. */
  type Table = t: seq<Option<nat>> | |t| == 4 witness [None, None, None, None]

  predicate Due(table: Table, t: TimeoutType, now: nat) {
    table[Index(t)].Some? && table[Index(t)].value <= now
  }

  /** The reached timers among the first n, as the loop of `check` collects them. */
  function Collected(table: Table, now: nat, n: nat): (r: seq<Entry>)
    requires n <= 4
    ensures Increasing(r)
  {
    if n == 0 then []
    else if Due(table, ALL[n - 1], now) then
      Insert(Collected(table, now, n - 1), Entry(table[n - 1].value, ALL[n - 1]))
    else Collected(table, now, n - 1)
  }

  /** An entry with the deadline of t stands for t: t itself, or a timer before it in the table. */
  predicate Stands(entries: seq<Entry>, table: Table, t: TimeoutType)
    requires table[Index(t)].Some?
  {
    exists e <- entries :: e.deadline == table[Index(t)].value && Index(e.timer) <= Index(t)
  }

  /** A collected timer is reached, and among the first n. */
  predicate Sound(e: Entry, table: Table, now: nat, n: nat) {
    Index(e.timer) < n && table[Index(e.timer)] == Some(e.deadline) && e.deadline <= now
  }

  lemma {:induction false} CollectedSound(table: Table, now: nat, n: nat)
    requires n <= 4
    ensures forall e <- Collected(table, now, n) :: Sound(e, table, now, n)
  {
    hide Insert;
    if n > 0 {
      CollectedSound(table, now, n - 1);
    }
  }

  lemma {:induction false} CollectedComplete(table: Table, now: nat, n: nat, t: TimeoutType)
    requires Index(t) < n <= 4 && Due(table, t, now)
    ensures Stands(Collected(table, now, n), table, t)
  {
    hide Insert;
    var before, after := Collected(table, now, n - 1), Collected(table, now, n);
    if Due(table, ALL[n - 1], now) {
      InsertKeeps(before, Entry(table[n - 1].value, ALL[n - 1]));
    }
    if Index(t) < n - 1 {
      CollectedComplete(table, now, n - 1, t);
    } else {
      CollectedSound(table, now, n - 1);
    }
  }

  /** One timer for every reached deadline, earliest first; of several, the first in the table. */
  predicate IsDueList(list: seq<TimeoutType>, table: Table, now: nat) {
    && (forall t <- list :: Due(table, t, now))
    && (forall i, j | 0 <= i < j < |list| && table[Index(list[i])].Some? && table[Index(list[j])].Some? ::
          table[Index(list[i])].value < table[Index(list[j])].value)
    && (forall t | Due(table, t, now) ::
          exists u <- list :: table[Index(u)] == table[Index(t)] && Index(u) <= Index(t))
  }

  function TimersOf(entries: seq<Entry>): seq<TimeoutType> {
    seq(|entries|, i requires 0 <= i < |entries| => entries[i].timer)
  }

  lemma {:induction false} CollectedIsDueList(table: Table, now: nat)
    ensures IsDueList(TimersOf(Collected(table, now, 4)), table, now)
    ensures Collected(table, now, 4) == [] <==> forall t :: !Due(table, t, now)
  {
    hide Collected, Insert;
    CollectedSound(table, now, 4);
    var entries := Collected(table, now, 4);
    var list := TimersOf(entries);
    forall k | 0 <= k < |entries|
      ensures Sound(entries[k], table, now, 4) && list[k] == entries[k].timer
    {
    }
    forall t | Due(table, t, now)
      ensures exists u <- list :: table[Index(u)] == table[Index(t)] && Index(u) <= Index(t)
    {
      CollectedComplete(table, now, 4, t);
      var k :| 0 <= k < |entries| && entries[k].deadline == table[Index(t)].value && Index(entries[k].timer) <= Index(t);
      assert list[k] in list;
    }
    hide Index;
    if entries != [] {
      assert Due(table, entries[0].timer, now);
    }
  }

  // ------------------------------------------------------------------- the timers

  class Timeouts {
    const timers: array<Option<nat>>

    ghost predicate Valid() {
      timers.Length == 4
    }

    /** The running timers and their deadlines. */
    ghost function Running(): map<TimeoutType, nat>
      reads timers
      requires Valid()
    {
      map t: TimeoutType | timers[Index(t)].Some? :: timers[Index(t)].value
    }

    constructor ()
      ensures Valid() && fresh(timers) && Running() == map[]
    {
      timers := new Option<nat>[4](_ => None);
    }

    /** A timer that runs is left alone. */
    method Start(t: TimeoutType, ms: nat, now: nat)
      requires Valid()
      modifies timers
      ensures Running() == StartTimer(old(Running()), t, now + ms)
    {
      if timers[Index(t)].Some? {
        return;
      }
      timers[Index(t)] := Some(now + ms);
    }

    /** `stop_timeout` and `reset_timeout` differ only in a warning. */
    method Stop(t: TimeoutType)
      requires Valid()
      modifies timers
      ensures Running() == StopTimer(old(Running()), t)
      ensures timers[..] == old(timers[..])[Index(t) := None]
    {
      timers[Index(t)] := None;
    }

    method Check(now: nat) returns (reached: Option<seq<TimeoutType>>)
      requires Valid()
      ensures reached == None <==> forall t :: !Due(timers[..], t, now)
      ensures reached.Some? ==> IsDueList(reached.value, timers[..], now)
      ensures reached.Some? ==> reached.value == TimersOf(Collected(timers[..], now, 4))
    {
      hide Insert, IsDueList, Increasing;
      var entries: seq<Entry> := [];
      var found := false;
      for i := 0 to 4
        invariant entries == Collected(timers[..], now, i)
        invariant found <==> entries != []
      {
        if timers[i].Some? && timers[i].value <= now {
          entries := Insert(entries, Entry(timers[i].value, ALL[i]));
          found := true;
        }
      }
      CollectedIsDueList(timers[..], now);
      if !found {
        return None;
      }
      var list: seq<TimeoutType> := [];
      for k := 0 to |entries|
        invariant list == TimersOf(entries[..k])
      {
        list := list + [entries[k].timer];
      }
      assert entries[..|entries|] == entries;
      return Some(list);
    }
  }

  // -------------------------------------------------------------------- draining

  /** How many timers are reached. */
  function DueCount(table: Table, now: nat): (n: nat)
    ensures n <= 4
  {
    One(Due(table, Sequence, now)) + One(Due(table, Performance, now))
    + One(Due(table, OngoingTimer, now)) + One(Due(table, TimeoutType.Contactor, now))
  }

  /** The table without the timers of a list. */
  predicate ResetBy(after: Table, before: Table, list: seq<TimeoutType>) {
    forall t :: after[Index(t)] == if t in list then None else before[Index(t)]
  }

  lemma FewerDue(after: Table, before: Table, list: seq<TimeoutType>, now: nat)
    requires ResetBy(after, before, list) && IsDueList(list, before, now) && list != []
    ensures DueCount(after, now) < DueCount(before, now)
    ensures forall t :: !Due(before, t, now) ==> after[Index(t)] == before[Index(t)]
  {
    hide ResetBy, IsDueList, Due, Index;
    StillDue(after, before, list, now);
    Decreases(after, before, list[0], now);
  }

  lemma Decreases(after: Table, before: Table, t: TimeoutType, now: nat)
    requires forall u :: Due(after, u, now) ==> Due(before, u, now)
    requires Due(before, t, now) && !Due(after, t, now)
    ensures DueCount(after, now) < DueCount(before, now)
  {
    hide Due;
  }

  lemma StillDue(after: Table, before: Table, list: seq<TimeoutType>, now: nat)
    requires ResetBy(after, before, list) && IsDueList(list, before, now) && list != []
    ensures forall t :: Due(after, t, now) ==> Due(before, t, now)
    ensures forall t :: !Due(before, t, now) ==> after[Index(t)] == before[Index(t)]
    ensures Due(before, list[0], now) && !Due(after, list[0], now)
  {
    hide Index;
    assert list[0] in list;
  }

  /** The client of `check`: resets every timer it is told of. */
  method ResetReached(timeouts: Timeouts, list: seq<TimeoutType>)
    requires timeouts.Valid()
    modifies timeouts.timers
    ensures ResetBy(timeouts.timers[..], old(timeouts.timers[..]), list)
  {
    ghost var before := timeouts.timers[..];
    assert list[..|list|] == list;
    for k := 0 to |list|
      invariant ResetBy(timeouts.timers[..], before, list[..k])
    {
      assert list[..k + 1] == list[..k] + [list[k]];
      timeouts.Stop(list[k]);
    }
  }

  /** Checking and resetting until nothing is reached takes at most one round for each reached
      timer, four in all, although timers with one deadline show up one at a time. */
  method DrainReached(timeouts: Timeouts, now: nat) returns (rounds: nat)
    requires timeouts.Valid()
    modifies timeouts.timers
    ensures rounds <= DueCount(old(timeouts.timers[..]), now) <= 4
    ensures forall t :: !Due(timeouts.timers[..], t, now)
    ensures forall t :: !Due(old(timeouts.timers[..]), t, now) ==>
                          timeouts.timers[Index(t)] == old(timeouts.timers[..])[Index(t)]
  {
    hide IsDueList, ResetBy, DueCount;
    rounds := 0;
    ghost var before := timeouts.timers[..];
    var reached := timeouts.Check(now);
    while reached.Some?
      invariant rounds + DueCount(timeouts.timers[..], now) <= DueCount(before, now)
      invariant forall t :: !Due(before, t, now) ==> timeouts.timers[Index(t)] == before[Index(t)]
      invariant reached == None <==> forall t :: !Due(timeouts.timers[..], t, now)
      invariant reached.Some? ==> IsDueList(reached.value, timeouts.timers[..], now)
      decreases DueCount(timeouts.timers[..], now)
    {
      ghost var table: Table := timeouts.timers[..];
      ResetReached(timeouts, reached.value);
      NotEmptyWhenDue(reached.value, table, now);
      FewerDue(timeouts.timers[..], table, reached.value, now);
      rounds := rounds + 1;
      reached := timeouts.Check(now);
    }
  }

  lemma NotEmptyWhenDue(list: seq<TimeoutType>, table: Table, now: nat)
    requires IsDueList(list, table, now) && !(forall t :: !Due(table, t, now))
    ensures list != []
  {
  }
}
