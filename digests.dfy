/**
 * The two digest tasks of src/sentry/tasks/digests.py: the periodic
 * `schedule_digests` sweep and `deliver_digest` for one key.
 *
 * The digest store, `split_key`, `build_digest`, the project option lookup
 * and the mail adapter are collaborators whose code is not part of this
 * model. What they answer is given by the `Collaborators` value; what the
 * tasks ask of them (maintenance, deletion, opening a digest, enqueueing a
 * delivery, sending a notification) is appended, in order, to the log of a
 * `SideEffects` object. Time is integer seconds.
 */
module Digests {
  import opened Wrappers

  /** `timeout` in `schedule_digests`: how far back maintenance reaches, in seconds. */
  const MaintenanceTimeout: int := 300

  /** An entry yielded by the store's schedule: a digest key ready at `timestamp`. */
  datatype ScheduleEntry = ScheduleEntry(key: string, timestamp: int)

  datatype Project = Project(id: int)
  datatype ActionTargetType = IssueOwners | Team | Member
  datatype FallthroughChoice = AllMembers | ActiveMembers | NoOne

  /** The four parts a digest key splits into. */
  datatype KeyParts = KeyParts(
    project: Project,
    targetType: ActionTargetType,
    targetIdentifier: Option<int>,
    fallthroughChoice: Option<FallthroughChoice>)

  /** `split_key(key)`: the parts, or Project.DoesNotExist. */
  datatype SplitOutcome = Split(parts: KeyParts) | ProjectDoesNotExist

  /** One buffered record of a digest, never inspected by `schedule_digests` or `deliver_digest`. */
  datatype Record = Record(id: int, timestamp: int)

  /** The built digest; `deliver_digest` only checks whether it is truthy (non-empty). */
  datatype Digest = Digest(rules: map<int, seq<Record>>)

  predicate Truthy(d: Digest) {
    d.rules != map[]
  }

  /** Entering `digests.digest(key, minimum_delay=...)`: its records, or InvalidState. */
  datatype OpenOutcome = Records(records: seq<Record>) | OpenInvalidState

  /** What each collaborator answers when `schedule_digests` and `deliver_digest` call it. */
  datatype Collaborators = Collaborators(
    schedule: int -> seq<ScheduleEntry>,
    splitKey: string -> SplitOutcome,
    mailMinimumDelay: Project -> Option<int>,
    openDigest: (string, Option<int>) -> OpenOutcome,
    closeRaisesInvalidState: string -> bool,
    buildDigest: (Project, seq<Record>) -> (Digest, seq<string>))

  /** A call `schedule_digests` or `deliver_digest` makes on a collaborator. */
  datatype Effect =
    | Maintenance(before: int)
    | DeliveryEnqueued(key: string, timestamp: int)
    | Deleted(key: string)
    | DigestOpened(key: string, minimumDelay: Option<int>)
    | Notified(
        project: Project,
        digest: Digest,
        targetType: ActionTargetType,
        targetIdentifier: Option<int>,
        fallthroughChoice: Option<FallthroughChoice>)

  /** The observable calls, in the order they are made. */
  class SideEffects {
    var log: seq<Effect>

    constructor ()
      ensures log == []
    {
      log := [];
    }

    /** `digests.maintenance(before)`. */
    method Maintain(before: int)
      modifies this
      ensures log == old(log) + [Maintenance(before)]
    {
      log := log + [Maintenance(before)];
    }

    /** `deliver_digest.delay(key, timestamp)`. */
    method EnqueueDelivery(key: string, timestamp: int)
      modifies this
      ensures log == old(log) + [DeliveryEnqueued(key, timestamp)]
    {
      log := log + [DeliveryEnqueued(key, timestamp)];
    }

    /** `digests.delete(key)`. */
    method Delete(key: string)
      modifies this
      ensures log == old(log) + [Deleted(key)]
    {
      log := log + [Deleted(key)];
    }

    /** Entering `digests.digest(key, minimum_delay=minimumDelay)`. */
    method OpenDigest(key: string, minimumDelay: Option<int>)
      modifies this
      ensures log == old(log) + [DigestOpened(key, minimumDelay)]
    {
      log := log + [DigestOpened(key, minimumDelay)];
    }

    /** `mail_adapter.notify_digest(...)`. */
    method NotifyDigest(parts: KeyParts, digest: Digest)
      modifies this
      ensures log == old(log) + [Notified(parts.project, digest, parts.targetType, parts.targetIdentifier, parts.fallthroughChoice)]
    {
      log := log + [Notified(parts.project, digest, parts.targetType, parts.targetIdentifier, parts.fallthroughChoice)];
    }
  }

  /** One enqueued delivery per schedule entry, in the order yielded. */
  function EnqueueAll(entries: seq<ScheduleEntry>): (r: seq<Effect>)
    ensures |r| == |entries|
    ensures forall i :: 0 <= i < |entries| ==> r[i] == DeliveryEnqueued(entries[i].key, entries[i].timestamp)
  {
    if entries == [] then []
    else
      var last := entries[|entries| - 1];
      EnqueueAll(entries[..|entries| - 1]) + [DeliveryEnqueued(last.key, last.timestamp)]
  }

  /** Enqueueing one more entry extends the enqueue calls by exactly one. */
  lemma EnqueueAllPrefix(entries: seq<ScheduleEntry>, i: nat)
    requires i < |entries|
    ensures EnqueueAll(entries[..i + 1])
         == EnqueueAll(entries[..i]) + [DeliveryEnqueued(entries[i].key, entries[i].timestamp)]
  {
    assert entries[..i + 1][..i] == entries[..i];
  }

  /** The calls of one `schedule_digests` run at time `deadline`, given the entries the store yields. */
  function ScheduleEffects(deadline: int, entries: seq<ScheduleEntry>): (r: seq<Effect>)
    ensures |r| == |entries| + 1
    ensures r[0] == Maintenance(deadline - 300)
    ensures forall i :: 0 <= i < |entries| ==> r[i + 1] == DeliveryEnqueued(entries[i].key, entries[i].timestamp)
  {
    [Maintenance(deadline - MaintenanceTimeout)] + EnqueueAll(entries)
  }

  /** Enqueueing one more entry extends a run's calls by exactly that delivery. */
  lemma ScheduleEffectsPrefix(deadline: int, entries: seq<ScheduleEntry>, i: nat)
    requires i < |entries|
    ensures ScheduleEffects(deadline, entries[..i + 1])
         == ScheduleEffects(deadline, entries[..i]) + [DeliveryEnqueued(entries[i].key, entries[i].timestamp)]
  {
    EnqueueAllPrefix(entries, i);
  }

  /** `schedule_digests()` run when the clock reads `now`. */
  method ScheduleDigests(fx: SideEffects, c: Collaborators, now: int)
    modifies fx
    ensures fx.log == old(fx.log) + ScheduleEffects(now, c.schedule(now))
  {
    var deadline := now;
    var timeout := MaintenanceTimeout;
    ghost var before := fx.log;
    fx.Maintain(deadline - timeout);
    var entries := c.schedule(deadline);
    for i := 0 to |entries|
      invariant fx.log == before + ScheduleEffects(deadline, entries[..i])
    {
      ScheduleEffectsPrefix(deadline, entries, i);
      fx.EnqueueDelivery(entries[i].key, entries[i].timestamp);
    }
    assert entries[..|entries|] == entries;
  }

  /** Number of notifications in a sequence of calls. */
  function NotifyCount(effects: seq<Effect>): nat {
    if effects == [] then 0
    else (if effects[0].Notified? then 1 else 0) + NotifyCount(effects[1..])
  }

  lemma {:induction false} NotifyCountAppend(a: seq<Effect>, b: seq<Effect>)
    ensures NotifyCount(a + b) == NotifyCount(a) + NotifyCount(b)
  {
    if a != [] {
      assert (a + b)[1..] == a[1..] + b;
      NotifyCountAppend(a[1..], b);
    } else {
      assert a + b == b;
    }
  }

  /** The notification that delivers `digest` to the target the key names. */
  function NotificationFor(parts: KeyParts, digest: Digest): Effect {
    Notified(parts.project, digest, parts.targetType, parts.targetIdentifier, parts.fallthroughChoice)
  }

  /** The key's project exists, the digest opens and closes cleanly, and the built digest is non-empty. */
  predicate Delivers(c: Collaborators, key: string) {
    && c.splitKey(key).Split?
    && var parts := c.splitKey(key).parts;
    && c.openDigest(key, c.mailMinimumDelay(parts.project)).Records?
    && !c.closeRaisesInvalidState(key)
    && Truthy(c.buildDigest(parts.project, c.openDigest(key, c.mailMinimumDelay(parts.project)).records).0)
  }

  /** The calls of one `deliver_digest(key)` run. */
  function DeliverEffects(c: Collaborators, key: string): (r: seq<Effect>)
    // a key whose project is gone is deleted and nothing else happens
    ensures c.splitKey(key).ProjectDoesNotExist? ==> r == [Deleted(key)]
    ensures Deleted(key) in r <==> c.splitKey(key).ProjectDoesNotExist?
    // only a key whose project is gone causes any deletion
    ensures forall e | e in r && e.Deleted? :: c.splitKey(key).ProjectDoesNotExist?
    // otherwise the digest is opened first, with the project's mail minimum delay
    ensures c.splitKey(key).Split? ==>
      |r| > 0 && r[0] == DigestOpened(key, c.mailMinimumDelay(c.splitKey(key).parts.project))
    // InvalidState on opening or closing: nothing after the opening
    ensures
      (&& c.splitKey(key).Split?
       && (|| c.openDigest(key, c.mailMinimumDelay(c.splitKey(key).parts.project)).OpenInvalidState?
           || c.closeRaisesInvalidState(key)))
      ==> r == [DigestOpened(key, c.mailMinimumDelay(c.splitKey(key).parts.project))]
    // a digest that opens and closes cleanly: the opening, then the notification if there is something to deliver
    ensures
      (&& c.splitKey(key).Split?
       && var parts := c.splitKey(key).parts;
       && var answer := c.openDigest(key, c.mailMinimumDelay(parts.project));
       && answer.Records?
       && !c.closeRaisesInvalidState(key))
      ==> var parts := c.splitKey(key).parts;
          var answer := c.openDigest(key, c.mailMinimumDelay(parts.project));
          r == [DigestOpened(key, c.mailMinimumDelay(parts.project))]
             + (if Delivers(c, key) then [NotificationFor(parts, c.buildDigest(parts.project, answer.records).0)] else [])
    // at most one notification, exactly when there is something to deliver
    ensures NotifyCount(r) <= 1
    ensures NotifyCount(r) == 1 <==> Delivers(c, key)
    // the notification goes to the target the key names and carries the built digest
    ensures forall e | e in r && e.Notified? ::
      && c.splitKey(key).Split?
      && var parts := c.splitKey(key).parts;
      && e == NotificationFor(parts, c.buildDigest(parts.project, c.openDigest(key, c.mailMinimumDelay(parts.project)).records).0)
  {
    match c.splitKey(key)
    case ProjectDoesNotExist => [Deleted(key)]
    case Split(parts) =>
      var minimumDelay := c.mailMinimumDelay(parts.project);
      var opening := [DigestOpened(key, minimumDelay)];
      match c.openDigest(key, minimumDelay)
      case OpenInvalidState => opening
      case Records(records) =>
        var digest := c.buildDigest(parts.project, records).0;
        if c.closeRaisesInvalidState(key) then opening
        else if Truthy(digest) then
          NotifyCountAppend(opening, [NotificationFor(parts, digest)]);
          opening + [NotificationFor(parts, digest)]
        else opening
  }

  /** `deliver_digest(key, schedule_timestamp)`; the timestamp is never read. */
  method DeliverDigest(fx: SideEffects, c: Collaborators, key: string, scheduleTimestamp: Option<int>)
    modifies fx
    ensures fx.log == old(fx.log) + DeliverEffects(c, key)
  {
    var split := c.splitKey(key);
    if split.ProjectDoesNotExist? {
      fx.Delete(key);
      return;
    }
    var parts := split.parts;
    var minimumDelay := c.mailMinimumDelay(parts.project);
    fx.OpenDigest(key, minimumDelay);
    var answer := c.openDigest(key, minimumDelay);
    if answer.OpenInvalidState? {
      return;
    }
    var built := c.buildDigest(parts.project, answer.records);
    var digest := built.0;
    if c.closeRaisesInvalidState(key) {
      return;
    }
    if Truthy(digest) {
      fx.NotifyDigest(parts, digest);
    }
    // an empty digest is only logged
  }

  /** An empty digest is never sent. */
  lemma EmptyDigestNotSent(c: Collaborators, key: string)
    requires c.splitKey(key).Split?
    requires var parts := c.splitKey(key).parts;
      var answer := c.openDigest(key, c.mailMinimumDelay(parts.project));
      answer.Records? && !Truthy(c.buildDigest(parts.project, answer.records).0)
    ensures forall e | e in DeliverEffects(c, key) :: !e.Notified?
  {
  }

  /** Number of deliveries enqueued for `key` in a sequence of calls. */
  function EnqueueCount(effects: seq<Effect>, key: string): nat {
    if effects == [] then 0
    else (if effects[0].DeliveryEnqueued? && effects[0].key == key then 1 else 0) + EnqueueCount(effects[1..], key)
  }

  /** Number of schedule entries for `key`. */
  function EntryCount(entries: seq<ScheduleEntry>, key: string): nat {
    if entries == [] then 0
    else (if entries[0].key == key then 1 else 0) + EntryCount(entries[1..], key)
  }

  lemma {:induction false} EnqueueAllCount(entries: seq<ScheduleEntry>, key: string)
    ensures EnqueueCount(EnqueueAll(entries), key) == EntryCount(entries, key)
  {
    if entries != [] {
      var r := EnqueueAll(entries);
      assert r[1..] == EnqueueAll(entries[1..]);
      EnqueueAllCount(entries[1..], key);
    }
  }

  /**
   * A sweep enqueues exactly as many deliveries for a key as the schedule
   * yielded entries for it: none is dropped and none is duplicated.
   */
  lemma {:induction false} OneDeliveryPerEntry(deadline: int, entries: seq<ScheduleEntry>, key: string)
    ensures EnqueueCount(ScheduleEffects(deadline, entries), key) == EntryCount(entries, key)
  {
    var r := ScheduleEffects(deadline, entries);
    assert r[1..] == EnqueueAll(entries);
    EnqueueAllCount(entries, key);
  }
}
