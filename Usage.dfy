/** The daily usage ledger: the in-memory count of remote calls made today
    and the record persisted under the `geminiApiUsage` storage key. */
module Usage {
  import opened Types

  /** At most this many remote calls per calendar day. */
  const DailyLimit: int := 1000

  /** `{count, date}` as the application writes it. */
  datatype UsageRecord = UsageRecord(count: int, date: Date)

  /** A present storage entry: either `JSON.parse` (or the destructuring of
      its result) throws, or it yields a record. An absent entry, like the
      empty string, is `None` where the entry is used. */
  datatype StoredUsage = Unparsable | Parsed(record: UsageRecord)

  /** The count the application holds and the persisted entry beside it. */
  datatype Ledger = Ledger(used: int, stored: Option<StoredUsage>)

  /** The ledger after the load on start-up with the current day `today`:
      a record of today is adopted; a record of any other day is replaced by
      `{0, today}` and the count becomes 0; a missing entry is written as
      `{0, today}` without touching the count; an unparsable entry changes
      nothing (the error only goes to the console). */
  function Load(l: Ledger, today: Date): (r: Ledger)
    ensures l.stored == Some(Unparsable) ==> r == l
    ensures l.stored != Some(Unparsable) ==>
      r.stored.Some? && r.stored.value.Parsed? && r.stored.value.record.date == today
    ensures l.stored.None? ==> r.used == l.used && r.stored.value.record.count == 0
    ensures l.stored.Some? && l.stored.value.Parsed? ==>
      InSync(r, today) &&
      r.used == (if l.stored.value.record.date == today then l.stored.value.record.count else 0)
  {
    match l.stored
    case None => Ledger(l.used, Some(Parsed(UsageRecord(0, today))))
    case Some(Unparsable) => l
    case Some(Parsed(rec)) =>
      if rec.date == today then Ledger(rec.count, l.stored)
      else Ledger(0, Some(Parsed(UsageRecord(0, today))))
  }

  /** The ledger after one successful remote call observed on day `today`. */
  function Increment(l: Ledger, today: Date): (r: Ledger)
    ensures r.used == l.used + 1 && InSync(r, today)
  {
    Ledger(l.used + 1, Some(Parsed(UsageRecord(l.used + 1, today))))
  }

  /** The persisted entry records exactly the in-memory count for `today`. */
  predicate InSync(l: Ledger, today: Date) {
    l.stored == Some(Parsed(UsageRecord(l.used, today)))
  }

  /** On start-up (count 0) a parsable or missing entry leaves the ledger in
      sync with today; the count is the stored one only when it was stored today. */
  lemma LoadSyncs(stored: Option<StoredUsage>, today: Date)
    requires stored != Some(Unparsable)
    ensures InSync(Load(Ledger(0, stored), today), today)
    ensures Load(Ledger(0, stored), today).used ==
            if stored.Some? && stored.value.record.date == today then stored.value.record.count else 0
  {
  }

  /** Day rollover: a record `{5, yesterday}` loads as count 0 and the next
      increment yields 1, persisted with today's date. */
  lemma Rollover(yesterday: Date, today: Date)
    requires yesterday != today
    ensures var l := Load(Ledger(0, Some(Parsed(UsageRecord(5, yesterday)))), today);
            l.used == 0 && Increment(l, today) == Ledger(1, Some(Parsed(UsageRecord(1, today))))
  {
  }

  /** The ledger after one increment per day in `days`, in order. */
  function IncrementAll(l: Ledger, days: seq<Date>): Ledger
    decreases |days|
  {
    if days == [] then l else IncrementAll(Increment(l, days[0]), days[1..])
  }

  /** A sequence of increments raises the count by their number and leaves
      the entry recording the final count with the day of the last one. */
  lemma {:induction false} IncrementAllCounts(l: Ledger, days: seq<Date>)
    ensures IncrementAll(l, days).used == l.used + |days|
    ensures days != [] ==>
      IncrementAll(l, days).stored == Some(Parsed(UsageRecord(l.used + |days|, days[|days| - 1])))
    ensures days == [] ==> IncrementAll(l, days) == l
    decreases |days|
  {
    if days != [] {
      IncrementAllCounts(Increment(l, days[0]), days[1..]);
    }
  }

  /** One more increment at the end of a sequence of increments. */
  lemma {:induction false} IncrementAllSnoc(l: Ledger, days: seq<Date>, d: Date)
    ensures IncrementAll(l, days + [d]) == Increment(IncrementAll(l, days), d)
    decreases |days|
  {
    if days == [] {
      assert [] + [d] == [d];
    } else {
      assert (days + [d])[1..] == days[1..] + [d];
      IncrementAllSnoc(Increment(l, days[0]), days[1..], d);
    }
  }
}
