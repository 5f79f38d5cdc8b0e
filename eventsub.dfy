/** The remote set of EventSub subscriptions held by Twitch Helix, as the
    subscription managers see it: list (optionally filtered), create and
    delete by id. Which replies the remote gives is a parameter of every
    operation. */
module EventSub {
  import opened Wrappers
  import opened Ordering

  const StreamOnline: string := "stream.online"
  const StreamOffline: string := "stream.offline"
  const ChannelChatMessage: string := "channel.chat.message"
  const Enabled: string := "enabled"
  const VerificationPending: string := "webhook_callback_verification_pending"
  const Conflict: int := 409

  /** Callback paths, relative to the site URL. */
  const WebhookCallback: string := "/api/twitch/webhook"
  const EventSubCallback: string := "/api/twitch/eventsub"

  /** `response.ok`. */
  predicate IsOk(status: int) {
    200 <= status <= 299
  }

  datatype Condition = Condition(broadcasterUserId: string, userId: Option<string>)

  /** The body of a create request: type, condition and webhook callback
      (version is always "1"). */
  datatype SubRequest = SubRequest(subType: string, condition: Condition, callback: string)

  datatype Subscription = Subscription(id: nat, subType: string, version: string, condition: Condition,
                                       callback: string, status: string)

  /** `GET ?user_id=`: the subscriptions whose condition names the user. */
  function ListForUser(subs: seq<Subscription>, userId: string): seq<Subscription> {
    Filter(subs, (s: Subscription) => s.condition.broadcasterUserId == userId || s.condition.userId == Some(userId))
  }

  /** `GET ?type=`. */
  function ListByType(subs: seq<Subscription>, subType: string): seq<Subscription> {
    Filter(subs, (s: Subscription) => s.subType == subType)
  }

  /** The remote set after the subscriptions with the given ids are deleted. */
  function WithoutIds(subs: seq<Subscription>, ids: set<nat>): seq<Subscription> {
    Filter(subs, (s: Subscription) => s.id !in ids)
  }

  lemma {:induction false} WithoutIdsTwice(subs: seq<Subscription>, a: set<nat>, b: set<nat>)
    ensures WithoutIds(WithoutIds(subs, a), b) == WithoutIds(subs, a + b)
  {
    if subs != [] {
      WithoutIdsTwice(subs[1..], a, b);
      var head := if subs[0].id !in a then [subs[0]] else [];
      assert WithoutIds(subs, a) == head + WithoutIds(subs[1..], a);
      if subs[0].id !in a {
        assert WithoutIds(subs, a)[1..] == WithoutIds(subs[1..], a);
      } else {
        assert WithoutIds(subs, a) == WithoutIds(subs[1..], a);
      }
    }
  }

  lemma {:induction false} WithoutNoIds(subs: seq<Subscription>)
    ensures WithoutIds(subs, {}) == subs
  {
    if subs != [] {
      WithoutNoIds(subs[1..]);
    }
  }

  /** The subscriptions the remote creates for accepted requests, numbered from
      `nextId` on. A webhook subscription is created pending: Twitch enables
      it only once the callback has answered its verification challenge. */
  function Materialize(reqs: seq<SubRequest>, nextId: nat): (r: seq<Subscription>)
    ensures |r| == |reqs|
  {
    if reqs == [] then []
    else [Subscription(nextId, reqs[0].subType, "1", reqs[0].condition, reqs[0].callback, VerificationPending)]
         + Materialize(reqs[1..], nextId + 1)
  }

  /** The `k`-th created subscription is request `k`, pending, with id
      `nextId + k`. */
  lemma {:induction false} MaterializeAt(reqs: seq<SubRequest>, nextId: nat)
    ensures forall k :: 0 <= k < |reqs| ==>
              Materialize(reqs, nextId)[k]
                == Subscription(nextId + k, reqs[k].subType, "1", reqs[k].condition, reqs[k].callback, VerificationPending)
    decreases |reqs|
  {
    if reqs != [] {
      MaterializeAt(reqs[1..], nextId + 1);
    }
  }

  lemma MaterializeAppend(reqs: seq<SubRequest>, req: SubRequest, nextId: nat)
    ensures Materialize(reqs + [req], nextId) == Materialize(reqs, nextId) + Materialize([req], nextId + |reqs|)
  {
    MaterializeAt(reqs + [req], nextId);
    MaterializeAt(reqs, nextId);
    MaterializeAt([req], nextId + |reqs|);
  }

  /** The created subscriptions carry the ids `nextId` up to
      `nextId + |reqs|`, one each. */
  lemma MaterializeIds(reqs: seq<SubRequest>, nextId: nat)
    ensures forall s :: s in Materialize(reqs, nextId) ==> nextId <= s.id < nextId + |reqs|
    ensures forall s, t :: s in Materialize(reqs, nextId) && t in Materialize(reqs, nextId) && s.id == t.id ==> s == t
  {
    var created := Materialize(reqs, nextId);
    MaterializeAt(reqs, nextId);
    forall s | s in created ensures nextId <= s.id < nextId + |reqs| {
      var k :| 0 <= k < |created| && created[k] == s;
    }
    forall s, t | s in created && t in created && s.id == t.id ensures s == t {
      var k :| 0 <= k < |created| && created[k] == s;
      var j :| 0 <= j < |created| && created[j] == t;
    }
  }

  /** What Twitch does with a subscription once its callback has answered the
      verification challenge: a pending subscription becomes enabled. */
  function Confirm(s: Subscription): Subscription {
    if s.status == VerificationPending then s.(status := Enabled) else s
  }

  /** The remote set after every pending subscription has been verified. */
  function Confirmed(subs: seq<Subscription>): seq<Subscription> {
    seq(|subs|, k requires 0 <= k < |subs| => Confirm(subs[k]))
  }

  /** Subscription ids identify subscriptions. */
  ghost predicate IdsDetermine(subs: seq<Subscription>) {
    forall s, t :: s in subs && t in subs && s.id == t.id ==> s == t
  }

  /** The Helix subscription store. */
  class Remote {
    var subs: seq<Subscription>
    var nextId: nat

    ghost predicate Valid()
      reads this
    {
      IdsDetermine(subs) && forall s :: s in subs ==> s.id < nextId
    }

    /** Deleting never breaks `Valid()`. */
    static lemma DeletesKeepValid(r: Remote, subs: seq<Subscription>, ids: set<nat>)
      requires IdsDetermine(subs) && forall s :: s in subs ==> s.id < r.nextId
      requires r.subs == WithoutIds(subs, ids)
      ensures r.Valid()
    {
      FilterMembers(subs, (s: Subscription) => s.id !in ids);
    }

    /** Creating fresh ids never breaks `Valid()`. */
    static lemma CreatesKeepValid(r: Remote, subs: seq<Subscription>, reqs: seq<SubRequest>, nextId: nat)
      requires IdsDetermine(subs) && forall s :: s in subs ==> s.id < nextId
      requires r.subs == subs + Materialize(reqs, nextId) && r.nextId == nextId + |reqs|
      ensures r.Valid()
    {
      var created := Materialize(reqs, nextId);
      MaterializeIds(reqs, nextId);
      forall s, t | s in r.subs && t in r.subs && s.id == t.id ensures s == t {
        assert s in subs || s in created;
        assert t in subs || t in created;
      }
      forall s | s in r.subs ensures s.id < r.nextId {
        assert s in subs || s in created;
      }
    }

    constructor ()
      ensures Valid() && subs == []
    {
      subs := [];
      nextId := 0;
    }

    /** `POST /eventsub/subscriptions`, answered with `status`. */
    method Create(req: SubRequest, status: int) returns (created: bool)
      modifies this
      ensures old(Valid()) ==> Valid()
      ensures created <==> IsOk(status)
      ensures subs == old(subs) + Materialize(if created then [req] else [], old(nextId))
      ensures nextId == old(nextId) + (if created then 1 else 0)
    {
      created := IsOk(status);
      if created {
        subs := subs + Materialize([req], nextId);
        nextId := nextId + 1;
      }
    }

    /** `DELETE /eventsub/subscriptions?id=`, answered OK or not. */
    method Delete(id: nat, ok: bool)
      modifies this
      ensures nextId == old(nextId)
      ensures subs == if ok then WithoutIds(old(subs), {id}) else old(subs)
    {
      if ok {
        subs := WithoutIds(subs, {id});
      }
    }
  }

  /** The outcome of a helper that either returns or throws. */
  datatype Call = Completed | Threw

  /** The ids a loop of unchecked deletes removes: those the remote accepts. */
  function AcceptedDeletes(targets: seq<Subscription>, deleteOk: nat -> bool): (ids: set<nat>)
    ensures forall t :: t in targets && deleteOk(t.id) ==> t.id in ids
  {
    set t | t in targets && deleteOk(t.id) :: t.id
  }

  /** Every accepted id is the id of a target the remote accepted. */
  lemma AcceptedDeletesOnlyTargets(targets: seq<Subscription>, deleteOk: nat -> bool)
    ensures forall id :: id in AcceptedDeletes(targets, deleteOk) ==> exists t :: t in targets && t.id == id && deleteOk(id)
  {
  }

  /** A delete loop that skips what `p` rejects and throws at the first delete
      the remote refuses: the ids it removed and whether it threw. */
  datatype DeleteRun = DeleteRun(deleted: set<nat>, failed: bool)

  function RunDeletes(list: seq<Subscription>, p: Subscription -> bool, deleteOk: nat -> bool): (r: DeleteRun)
  {
    if list == [] then DeleteRun({}, false)
    else if !p(list[0]) then RunDeletes(list[1..], p, deleteOk)
    else if !deleteOk(list[0].id) then DeleteRun({}, true)
    else
      var rest := RunDeletes(list[1..], p, deleteOk);
      DeleteRun({list[0].id} + rest.deleted, rest.failed)
  }

  /** The delete loop only removes subscriptions it selected. */
  lemma {:induction false} RunDeletesSelected(list: seq<Subscription>, p: Subscription -> bool, deleteOk: nat -> bool)
    ensures forall id :: id in RunDeletes(list, p, deleteOk).deleted ==> exists t :: t in list && p(t) && t.id == id
  {
    if list != [] {
      RunDeletesSelected(list[1..], p, deleteOk);
      assert forall t :: t in list[1..] ==> t in list;
    }
  }

  /** One step of the delete loop, at position `i` of the list. */
  lemma RunDeletesUnfold(list: seq<Subscription>, i: nat, p: Subscription -> bool, deleteOk: nat -> bool)
    requires i < |list|
    ensures var rest := RunDeletes(list[i + 1..], p, deleteOk);
            RunDeletes(list[i..], p, deleteOk) ==
              if !p(list[i]) then rest
              else if !deleteOk(list[i].id) then DeleteRun({}, true)
              else DeleteRun({list[i].id} + rest.deleted, rest.failed)
  {
    assert list[i..][1..] == list[i + 1..];
  }

  /** Deletes go in list order: when the `k`-th listed subscription is the
      first selected one whose delete fails, exactly the selected ones before
      it are removed and the loop throws. */
  lemma {:induction false} RunDeletesStopsAtFailure(list: seq<Subscription>, p: Subscription -> bool,
                                                    deleteOk: nat -> bool, k: nat)
    requires k < |list| && p(list[k]) && !deleteOk(list[k].id)
    requires forall j :: 0 <= j < k && p(list[j]) ==> deleteOk(list[j].id)
    ensures RunDeletes(list, p, deleteOk).failed
    ensures RunDeletes(list, p, deleteOk).deleted == set j | 0 <= j < k && p(list[j]) :: list[j].id
  {
    if k == 0 {
    } else {
      RunDeletesStopsAtFailure(list[1..], p, deleteOk, k - 1);
      var rest := set j | 0 <= j < k - 1 && p(list[1..][j]) :: list[1..][j].id;
      var all := set j | 0 <= j < k && p(list[j]) :: list[j].id;
      if p(list[0]) {
        assert all == {list[0].id} + rest by {
          forall id | id in all ensures id in {list[0].id} + rest {
            var j :| 0 <= j < k && p(list[j]) && list[j].id == id;
            if j > 0 { assert list[1..][j - 1] == list[j]; }
          }
          forall id | id in rest ensures id in all {
            var j :| 0 <= j < k - 1 && p(list[1..][j]) && list[1..][j].id == id;
            assert list[j + 1] == list[1..][j];
          }
        }
      } else {
        assert all == rest by {
          forall id | id in all ensures id in rest {
            var j :| 0 <= j < k && p(list[j]) && list[j].id == id;
            assert j > 0;
            assert list[1..][j - 1] == list[j];
          }
          forall id | id in rest ensures id in all {
            var j :| 0 <= j < k - 1 && p(list[1..][j]) && list[1..][j].id == id;
            assert list[j + 1] == list[1..][j];
          }
        }
      }
    }
  }

  /** When every selected delete succeeds, the loop completes and removes
      every selected subscription. */
  lemma {:induction false} RunDeletesAllOk(list: seq<Subscription>, p: Subscription -> bool, deleteOk: nat -> bool)
    requires forall t :: t in list && p(t) ==> deleteOk(t.id)
    ensures !RunDeletes(list, p, deleteOk).failed
    ensures forall t :: t in list && p(t) ==> t.id in RunDeletes(list, p, deleteOk).deleted
  {
    if list != [] {
      RunDeletesAllOk(list[1..], p, deleteOk);
    }
  }

  /** With ids identifying subscriptions, a delete loop whose targets all
      satisfy `p` never removes a subscription that fails `p`. */
  lemma SparesUnselected(subs: seq<Subscription>, deleted: set<nat>, p: Subscription -> bool, s: Subscription)
    requires IdsDetermine(subs)
    requires forall id :: id in deleted ==> exists t :: t in subs && p(t) && t.id == id
    requires s in subs && !p(s)
    ensures s in WithoutIds(subs, deleted)
  {
    FilterMembers(subs, (t: Subscription) => t.id !in deleted);
  }

  /** A `for` loop over `list` that deletes each subscription satisfying `p`
      and throws at the first delete the remote refuses. */
  method DeleteUntilFailure(api: Remote, list: seq<Subscription>, p: Subscription -> bool, deleteOk: nat -> bool)
    returns (c: Call)
    requires api.Valid()
    modifies api
    ensures api.Valid()
    ensures api.subs == WithoutIds(old(api.subs), RunDeletes(list, p, deleteOk).deleted)
    ensures c == Threw <==> RunDeletes(list, p, deleteOk).failed
  {
    ghost var run := RunDeletes(list, p, deleteOk);
    ghost var deleted: set<nat> := {};
    WithoutNoIds(api.subs);
    var i := 0;
    while i < |list|
      invariant 0 <= i <= |list| && api.nextId == old(api.nextId)
      invariant api.subs == WithoutIds(old(api.subs), deleted)
      invariant deleted + RunDeletes(list[i..], p, deleteOk).deleted == run.deleted
      invariant RunDeletes(list[i..], p, deleteOk).failed == run.failed
    {
      var sub := list[i];
      RunDeletesUnfold(list, i, p, deleteOk);
      if p(sub) {
        api.Delete(sub.id, deleteOk(sub.id));
        if !deleteOk(sub.id) {
          Remote.DeletesKeepValid(api, old(api.subs), deleted);
          return Threw;
        }
        WithoutIdsTwice(old(api.subs), deleted, {sub.id});
        deleted := deleted + {sub.id};
      }
      i := i + 1;
    }
    assert list[i..] == [];
    Remote.DeletesKeepValid(api, old(api.subs), deleted);
    return Completed;
  }

  lemma AcceptedDeletesStep(targets: seq<Subscription>, i: nat, deleteOk: nat -> bool)
    requires i < |targets|
    ensures AcceptedDeletes(targets[..i + 1], deleteOk) ==
            AcceptedDeletes(targets[..i], deleteOk) + (if deleteOk(targets[i].id) then {targets[i].id} else {})
  {
    assert targets[..i + 1] == targets[..i] + [targets[i]];
  }

  /** A loop (or `Promise.all`) of deletes whose results nobody checks: every
      target is sent a delete, and the accepted ones are gone. */
  method DeleteEach(api: Remote, targets: seq<Subscription>, deleteOk: nat -> bool)
    requires api.Valid()
    modifies api
    ensures api.Valid()
    ensures api.subs == WithoutIds(old(api.subs), AcceptedDeletes(targets, deleteOk))
  {
    WithoutNoIds(api.subs);
    assert AcceptedDeletes(targets[..0], deleteOk) == {};
    var i := 0;
    while i < |targets|
      invariant 0 <= i <= |targets| && api.nextId == old(api.nextId)
      invariant api.subs == WithoutIds(old(api.subs), AcceptedDeletes(targets[..i], deleteOk))
    {
      var t := targets[i];
      ghost var before := AcceptedDeletes(targets[..i], deleteOk);
      api.Delete(t.id, deleteOk(t.id));
      AcceptedDeletesStep(targets, i, deleteOk);
      if deleteOk(t.id) {
        WithoutIdsTwice(old(api.subs), before, {t.id});
      } else {
        assert AcceptedDeletes(targets[..i + 1], deleteOk) == before;
      }
      i := i + 1;
    }
    assert targets[..i] == targets;
    Remote.DeletesKeepValid(api, old(api.subs), AcceptedDeletes(targets, deleteOk));
  }
}
