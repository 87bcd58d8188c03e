/**
 * The bans collection: one record per banned account with its append-only history of ban
 * events, the ban schema, the insert-or-append ban, the unban, and the expiry sweep.
 */
module BanModel {
  import opened Common
  import opened Zod
  import opened Collection

  /** A date value: an instant in milliseconds, or the invalid date that arithmetic on NaN produces. */
  datatype Date = At(ms: int) | InvalidDate

  /** One ban: when it was issued, when it ends (absent: never), and why. */
  datatype BanEvent = BanEvent(createdAt: Date, expiresAt: Option<Date>, reason: string)

  /** The body handed to `banUser`. */
  datatype BanInput = BanInput(userId: string, history: seq<BanEvent>, expiresAt: Option<Date>)

  /** A stored ban record; `expiresAt` mirrors the latest ban's end (absent: permanent). */
  datatype Ban = Ban(
    id: string,
    userId: string,
    history: seq<BanEvent>,
    expiresAt: Option<Date>,
    active: bool,
    count: int,
    createdAt: int,
    updatedAt: int)

  const InvalidDateMessage := "Invalid date"

  predicate ValidDate(d: Date) {
    d.At?
  }

  predicate ValidOptionalDate(d: Option<Date>) {
    d.Some? ==> ValidDate(d.value)
  }

  /** What the event schema accepts: real dates and a non-empty reason. */
  predicate ValidEvent(e: BanEvent) {
    ValidDate(e.createdAt) && ValidOptionalDate(e.expiresAt) && e.reason != ""
  }

  /** What the ban schema accepts: a non-empty user id, a real date, and at least one valid event. */
  predicate ValidBan(b: BanInput) {
    b.userId != "" && ValidOptionalDate(b.expiresAt) && |b.history| > 0 &&
    forall i :: 0 <= i < |b.history| ==> ValidEvent(b.history[i])
  }

  /** The event schema's issues for the event at position `i` of the history. */
  function EventIssues(e: BanEvent, i: nat): seq<Issue> {
    (if ValidDate(e.createdAt) then [] else [Issue([Key("history"), Index(i), Key("createdAt")], InvalidDateMessage)]) +
    (if ValidOptionalDate(e.expiresAt) then [] else [Issue([Key("history"), Index(i), Key("expiresAt")], InvalidDateMessage)]) +
    (if e.reason != "" then [] else [Issue([Key("history"), Index(i), Key("reason")], "Reason is required")])
  }

  /** The issues of every event of a history whose first element sits at position `from`. */
  function HistoryIssues(h: seq<BanEvent>, from: nat): seq<Issue>
    decreases |h|
  {
    if |h| == 0 then [] else EventIssues(h[0], from) + HistoryIssues(h[1..], from + 1)
  }

  /** A history has no issues exactly when every event is valid. */
  lemma {:induction false} HistoryIssuesEmpty(h: seq<BanEvent>, from: nat)
    ensures HistoryIssues(h, from) == [] <==> forall i :: 0 <= i < |h| ==> ValidEvent(h[i])
    decreases |h|
  {
    if |h| > 0 {
      HistoryIssuesEmpty(h[1..], from + 1);
      assert forall i :: 1 <= i < |h| ==> h[i] == h[1..][i - 1];
    }
  }

  /** The ban schema's issues, in schema order: user id, expiry, then the history. */
  function BanIssues(b: BanInput): (issues: seq<Issue>)
    ensures issues == [] <==> ValidBan(b)
  {
    HistoryIssuesEmpty(b.history, 0);
    (if b.userId != "" then [] else [FieldIssue("userId", "User ID is required")]) +
    (if ValidOptionalDate(b.expiresAt) then [] else [FieldIssue("expiresAt", InvalidDateMessage)]) +
    (if |b.history| > 0 then HistoryIssues(b.history, 0) else [FieldIssue("history", "At least one ban event is required")])
  }

  /** The filter `{ userId }`. */
  function ForUser(userId: string): Ban -> bool {
    (b: Ban) => b.userId == userId
  }

  /** The filter `{ userId, active: true }`. */
  function ActiveForUser(userId: string): Ban -> bool {
    (b: Ban) => b.userId == userId && b.active
  }

  /** `findOne({ userId })`. */
  function FindBan(docs: seq<Ban>, userId: string): Option<Ban> {
    FindOne(docs, ForUser(userId))
  }

  /** The record a first ban inserts. */
  function NewBan(b: BanInput, id: string, now: int): Ban {
    Ban(id, b.userId, b.history, b.expiresAt, true, 1, now, now)
  }

  /** The `$set`/`$inc` a repeated ban applies: append the events, reactivate, take the new expiry, count one more. */
  function Reban(b: BanInput, now: int): Ban -> Ban {
    (x: Ban) => x.(active := true, history := x.history + b.history, expiresAt := b.expiresAt,
                   updatedAt := now, count := x.count + 1)
  }

  /**
   * The collection after `banUser`: the user's record, found by its first match, gains the
   * new events after the old ones, becomes active with the new expiry and counts one more
   * ban; a user without a record gets a new one with count 1. The collection grows only in
   * the second case.
   */
  function ApplyBan(docs: seq<Ban>, b: BanInput, freshId: string, now: int): (r: seq<Ban>)
    ensures var prev := FindBan(docs, b.userId);
      FindBan(r, b.userId) == Some(
        if prev.None? then Ban(freshId, b.userId, b.history, b.expiresAt, true, 1, now, now)
        else prev.value.(active := true, history := prev.value.history + b.history,
                         expiresAt := b.expiresAt, updatedAt := now, count := prev.value.count + 1))
    ensures |r| == if FindBan(docs, b.userId).None? then |docs| + 1 else |docs|
  {
    if FindBan(docs, b.userId).None? then
      var r := docs + [NewBan(b, freshId, now)];
      assert ForUser(b.userId)(r[|docs|]);
      assert FirstMatch(r, ForUser(b.userId)) == Some(|docs|);
      r
    else
      var i := FirstMatch(docs, ForUser(b.userId)).value;
      var r := UpdateOne(docs, ForUser(b.userId), Reban(b, now));
      assert ForUser(b.userId)(r[i]);
      assert FirstMatch(r, ForUser(b.userId)) == Some(i);
      r
  }

  /** Records of other users are untouched by a ban, and the banned user never gets a second record. */
  lemma {:induction false} BanKeepsOthers(docs: seq<Ban>, b: BanInput, freshId: string, now: int)
    ensures var r := ApplyBan(docs, b, freshId, now);
      (forall j :: 0 <= j < |docs| && docs[j].userId != b.userId ==> r[j] == docs[j]) &&
      (forall j :: |docs| <= j < |r| ==> r[j].userId == b.userId) &&
      Count(r, ForUser(b.userId)) == if Count(docs, ForUser(b.userId)) == 0 then 1 else Count(docs, ForUser(b.userId))
  {
    var r := ApplyBan(docs, b, freshId, now);
    CountZero(docs, ForUser(b.userId));
    if FindBan(docs, b.userId).None? {
      CountAppend(docs, [NewBan(b, freshId, now)], ForUser(b.userId));
      assert [NewBan(b, freshId, now)][1..] == [];
    } else {
      var i := FirstMatch(docs, ForUser(b.userId)).value;
      assert r == docs[i := Reban(b, now)(docs[i])];
      CountReplace(docs, i, Reban(b, now)(docs[i]), ForUser(b.userId));
    }
  }

  /** Two bans of the same user: two more events in order, two more counted, still active. */
  lemma BanTwice(docs: seq<Ban>, b1: BanInput, b2: BanInput, id1: string, id2: string, now1: int, now2: int)
    requires b1.userId == b2.userId
    ensures var prev := FindBan(docs, b1.userId);
      var after := FindBan(ApplyBan(ApplyBan(docs, b1, id1, now1), b2, id2, now2), b1.userId);
      && after.Some? && after.value.active
      && after.value.history == (if prev.Some? then prev.value.history else []) + b1.history + b2.history
      && after.value.count == (if prev.Some? then prev.value.count else 0) + 2
      && after.value.expiresAt == b2.expiresAt
  {
    var prev := FindBan(docs, b1.userId);
    if prev.None? {
      assert [] + b1.history == b1.history;
    }
  }

  /** At most one record per user: the invariant every ban operation keeps. */
  ghost predicate OnePerUser(docs: seq<Ban>) {
    forall i, j :: 0 <= i < j < |docs| ==> docs[i].userId != docs[j].userId
  }

  lemma BanKeepsOnePerUser(docs: seq<Ban>, b: BanInput, freshId: string, now: int)
    requires OnePerUser(docs)
    ensures OnePerUser(ApplyBan(docs, b, freshId, now))
  {
    var r := ApplyBan(docs, b, freshId, now);
    BanKeepsOthers(docs, b, freshId, now);
    if FindBan(docs, b.userId).Some? {
      var i := FirstMatch(docs, ForUser(b.userId)).value;
      assert forall j :: 0 <= j < |r| ==> r[j].userId == docs[j].userId;
    } else {
      assert forall j :: 0 <= j < |docs| ==> r[j] == docs[j];
    }
  }

  /** The `$set` of an unban. */
  function Deactivate(now: int): Ban -> Ban {
    (x: Ban) => x.(active := false, updatedAt := now)
  }

  /** The collection after `unbanUser`: the user's first active record becomes inactive. */
  function ApplyUnban(docs: seq<Ban>, userId: string, now: int): seq<Ban> {
    UpdateOne(docs, ActiveForUser(userId), Deactivate(now))
  }

  /**
   * An unban only ever flips `active` (and `updatedAt`) of one active record of that user;
   * history, count and expiry stay; with no active record it changes nothing; and when each
   * user has one record, no record of that user is active afterwards.
   */
  lemma UnbanEffect(docs: seq<Ban>, userId: string, now: int)
    ensures var r := ApplyUnban(docs, userId, now);
      && |r| == |docs|
      && (forall j :: 0 <= j < |docs| ==> r[j] == docs[j].(active := r[j].active, updatedAt := r[j].updatedAt))
      && (forall j :: 0 <= j < |docs| && r[j] != docs[j] ==> docs[j].userId == userId && docs[j].active && !r[j].active)
      && (forall j, k :: 0 <= j < k < |docs| && r[j] != docs[j] ==> r[k] == docs[k])
      && (forall j :: 0 <= j < |docs| && docs[j].userId != userId ==> r[j] == docs[j])
      && ((forall j :: 0 <= j < |docs| ==> !(docs[j].userId == userId && docs[j].active)) ==> r == docs)
      && (OnePerUser(docs) ==> forall j :: 0 <= j < |r| && r[j].userId == userId ==> !r[j].active)
  {
    var r := ApplyUnban(docs, userId, now);
    if OnePerUser(docs) {
      forall j | 0 <= j < |r| && r[j].userId == userId ensures !r[j].active {
        var m := FirstMatch(docs, ActiveForUser(userId));
        if m.Some? && m.value != j {
          assert docs[m.value].userId == userId;
        }
      }
    }
  }

  /** A ban whose end has been reached while it is still marked active. Permanent bans never qualify. */
  predicate Expired(b: Ban, now: int) {
    b.active && b.expiresAt.Some? && b.expiresAt.value.At? && b.expiresAt.value.ms <= now
  }

  /** The sweep's `$set` on one record. */
  function Expire(b: Ban, now: int): Ban {
    if Expired(b, now) then b.(active := false, updatedAt := now) else b
  }

  /** The collection after `updateExpiredBans`: every expired record is deactivated, all others untouched. */
  function Swept(docs: seq<Ban>, now: int): (r: seq<Ban>)
    ensures |r| == |docs|
    ensures forall i :: 0 <= i < |docs| ==> r[i] == Expire(docs[i], now)
  {
    seq(|docs|, i requires 0 <= i < |docs| => Expire(docs[i], now))
  }

  /**
   * The sweep sets `active` to false on exactly the active records whose end has passed;
   * permanent and inactive records, and records not yet due, are left as they were;
   * nothing but `active` and `updatedAt` ever changes; and no expired record remains.
   */
  lemma SweepEffect(docs: seq<Ban>, now: int)
    ensures var r := Swept(docs, now);
      && (forall i :: 0 <= i < |docs| ==> r[i].active == (docs[i].active && !Expired(docs[i], now)))
      && (forall i :: 0 <= i < |docs| && !Expired(docs[i], now) ==> r[i] == docs[i])
      && (forall i :: 0 <= i < |docs| && docs[i].expiresAt.None? ==> r[i] == docs[i])
      && (forall i :: 0 <= i < |docs| ==>
            r[i] == docs[i].(active := r[i].active, updatedAt := r[i].updatedAt))
      && (forall i :: 0 <= i < |docs| ==> !Expired(r[i], now))
  {
  }

  /** A second sweep at the same instant changes nothing. */
  lemma SweepIdempotent(docs: seq<Ban>, now: int)
    ensures Swept(Swept(docs, now), now) == Swept(docs, now)
  {
    var once := Swept(docs, now);
    assert forall i :: 0 <= i < |once| ==> Expire(once[i], now) == once[i];
  }

  /** Sweeps and unbans keep one record per user. */
  lemma SweepAndUnbanKeepOnePerUser(docs: seq<Ban>, userId: string, now: int)
    requires OnePerUser(docs)
    ensures OnePerUser(Swept(docs, now))
    ensures OnePerUser(ApplyUnban(docs, userId, now))
  {
    UnbanEffect(docs, userId, now);
  }

  /** The bans collection, changed in place by ban, unban and the expiry sweep. */
  class BanCollection {
    var docs: seq<Ban>

    constructor ()
      ensures docs == []
    {
      docs := [];
    }

    /**
     * `banUser`: validate the body, then read the user's record and either rewrite it or
     * insert a new one. An invalid body raises the validation error and writes nothing.
     */
    method BanUser(input: BanInput, freshId: string, now: int) returns (issues: seq<Issue>)
      modifies this
      ensures issues == BanIssues(input)
      ensures issues != [] ==> docs == old(docs)
      ensures issues == [] ==> docs == ApplyBan(old(docs), input, freshId, now)
    {
      issues := BanIssues(input);
      if issues != [] {
        return;
      }
      var existing := FindBan(docs, input.userId);
      if existing.Some? {
        docs := UpdateOne(docs, ForUser(input.userId), Reban(input, now));
      } else {
        docs := docs + [NewBan(input, freshId, now)];
      }
    }

    /** `unbanUser`: deactivate the user's active record, if there is one. */
    method UnbanUser(userId: string, now: int)
      modifies this
      ensures docs == ApplyUnban(old(docs), userId, now)
    {
      docs := UpdateOne(docs, ActiveForUser(userId), Deactivate(now));
    }

    /** `updateExpiredBans`: the `updateMany` over every record whose ban has run out. */
    method UpdateExpiredBans(now: int)
      modifies this
      ensures docs == Swept(old(docs), now)
    {
      var i := 0;
      while i < |docs|
        invariant 0 <= i <= |docs| == |old(docs)|
        invariant forall k :: 0 <= k < i ==> docs[k] == Expire(old(docs)[k], now)
        invariant forall k :: i <= k < |docs| ==> docs[k] == old(docs)[k]
      {
        if Expired(docs[i], now) {
          docs := docs[i := docs[i].(active := false, updatedAt := now)];
        }
        i := i + 1;
      }
    }
  }
}
