/** `manageTwitchSubscriptions` of app/api/twitch/subscriptions/service.ts:
    reconcile the stream.online/stream.offline pair of one broadcaster with
    the remote subscription set. Enabling creates only the missing members of
    the pair and accepts a 409 conflict; disabling deletes the pair's
    subscriptions of this broadcaster without checking the results. Errors
    are caught and reported as `{success: false, status: 500}`. */
module SubscriptionService {
  import opened Wrappers
  import opened EventSub
  import opened Ordering

  datatype ManageStatus = Active | Created | Disabled | Failed(code: int)

  datatype ManageResult = ManageResult(success: bool, status: ManageStatus)

  /** The caught-error result: the thrown errors carry no `status`, so the
      fallback 500 is reported. */
  const FailedResult: ManageResult := ManageResult(false, Failed(500))

  /** `existingData.data?.some(...)`: an enabled subscription of this type
      whose broadcaster is the user. */
  predicate HasEnabled(existing: seq<Subscription>, subType: string, userId: string) {
    exists s :: s in existing && s.subType == subType && s.condition.broadcasterUserId == userId && s.status == Enabled
  }

  /** The create request for one member of the pair. */
  function StreamRequest(subType: string, userId: string): (req: SubRequest)
    ensures req.subType == subType && req.condition == Condition(userId, None) && req.callback == WebhookCallback
  {
    SubRequest(subType, Condition(userId, None), WebhookCallback)
  }

  /** `subscriptionsToCreate`: the members of the pair not yet present and
      enabled, online first. */
  function MissingRequests(existing: seq<Subscription>, userId: string): seq<SubRequest> {
    (if HasEnabled(existing, StreamOnline, userId) then [] else [StreamRequest(StreamOnline, userId)])
    + (if HasEnabled(existing, StreamOffline, userId) then [] else [StreamRequest(StreamOffline, userId)])
  }

  /** Exactly the missing members are requested, each once, online first. */
  lemma MissingRequestsExact(existing: seq<Subscription>, userId: string)
    ensures var reqs := MissingRequests(existing, userId);
            && (forall req :: req in reqs <==>
                  || (req == StreamRequest(StreamOnline, userId) && !HasEnabled(existing, StreamOnline, userId))
                  || (req == StreamRequest(StreamOffline, userId) && !HasEnabled(existing, StreamOffline, userId)))
            && |reqs| <= 2
            && (|reqs| == 2 ==> reqs[0].subType == StreamOnline && reqs[1].subType == StreamOffline)
  {
  }

  /** What the create loop does with the replies: an OK reply creates the
      subscription, 409 is skipped as already existing, any other status
      throws and ends the loop (earlier creates stay). */
  datatype CreateOutcome = CreateOutcome(accepted: seq<SubRequest>, failed: bool)

  function CreateRun(reqs: seq<SubRequest>, createReply: string -> int): CreateOutcome {
    if reqs == [] then CreateOutcome([], false)
    else if IsOk(createReply(reqs[0].subType)) then
      var rest := CreateRun(reqs[1..], createReply);
      CreateOutcome([reqs[0]] + rest.accepted, rest.failed)
    else if createReply(reqs[0].subType) == Conflict then CreateRun(reqs[1..], createReply)
    else CreateOutcome([], true)
  }

  /** Only requested subscriptions are created, in request order. */
  lemma {:induction false} CreateRunSubsequence(reqs: seq<SubRequest>, createReply: string -> int)
    ensures |CreateRun(reqs, createReply).accepted| <= |reqs|
    ensures forall req :: req in CreateRun(reqs, createReply).accepted ==> req in reqs && IsOk(createReply(req.subType))
  {
    if reqs != [] {
      CreateRunSubsequence(reqs[1..], createReply);
    }
  }

  /** A 409 counts as success: when every reply is OK or a conflict the loop
      does not fail, and it creates exactly the requests answered OK. */
  lemma {:induction false} ConflictIsSuccess(reqs: seq<SubRequest>, createReply: string -> int)
    requires forall req :: req in reqs ==> IsOk(createReply(req.subType)) || createReply(req.subType) == Conflict
    ensures !CreateRun(reqs, createReply).failed
    ensures forall req :: req in reqs && IsOk(createReply(req.subType)) ==> req in CreateRun(reqs, createReply).accepted
  {
    if reqs != [] {
      assert forall req :: req in reqs[1..] ==> req in reqs;
      ConflictIsSuccess(reqs[1..], createReply);
    }
  }

  /** A reply that is neither OK nor 409 fails the run. */
  lemma {:induction false} CreateRunFailsOnError(reqs: seq<SubRequest>, createReply: string -> int, k: nat)
    requires k < |reqs| && !IsOk(createReply(reqs[k].subType)) && createReply(reqs[k].subType) != Conflict
    ensures CreateRun(reqs, createReply).failed
  {
    if k > 0 {
      CreateRunFailsOnError(reqs[1..], createReply, k - 1);
    }
  }

  /** The create loop run against the remote's state: the subscriptions
      and next id it leaves, and whether it threw. */
  datatype CreateState = CreateState(subs: seq<Subscription>, nextId: nat, failed: bool)

  function CreateFrom(subs: seq<Subscription>, nextId: nat, reqs: seq<SubRequest>, createReply: string -> int)
    : CreateState
    decreases |reqs|
  {
    if reqs == [] then CreateState(subs, nextId, false)
    else
      var status := createReply(reqs[0].subType);
      if IsOk(status) then CreateFrom(subs + Materialize([reqs[0]], nextId), nextId + 1, reqs[1..], createReply)
      else if status == Conflict then CreateFrom(subs, nextId, reqs[1..], createReply)
      else CreateState(subs, nextId, true)
  }

  /** Running the loop against the remote appends exactly the accepted
      requests, numbered from `nextId` on. */
  lemma {:induction false} CreateFromRun(subs: seq<Subscription>, nextId: nat, reqs: seq<SubRequest>,
                                         createReply: string -> int)
    ensures var st := CreateFrom(subs, nextId, reqs, createReply);
            var run := CreateRun(reqs, createReply);
            && st.subs == subs + Materialize(run.accepted, nextId)
            && st.nextId == nextId + |run.accepted|
            && st.failed == run.failed
    decreases |reqs|
  {
    if reqs == [] {
      assert subs + [] == subs;
    } else {
      var status := createReply(reqs[0].subType);
      var rest := CreateRun(reqs[1..], createReply);
      if IsOk(status) {
        var made := Materialize([reqs[0]], nextId);
        CreateFromRun(subs + made, nextId + 1, reqs[1..], createReply);
        var accepted := [reqs[0]] + rest.accepted;
        assert accepted[0] == reqs[0] && accepted[1..] == rest.accepted;
        assert Materialize(accepted, nextId) == made + Materialize(rest.accepted, nextId + 1);
        ConcatAssoc(subs, made, Materialize(rest.accepted, nextId + 1));
      } else if status == Conflict {
        CreateFromRun(subs, nextId, reqs[1..], createReply);
      } else {
        assert subs + [] == subs;
      }
    }
  }

  /** The disable filter: this broadcaster's online and offline subscriptions. */
  predicate IsPairOf(s: Subscription, userId: string) {
    s.condition.broadcasterUserId == userId && (s.subType == StreamOnline || s.subType == StreamOffline)
  }

  function DisableTargets(existing: seq<Subscription>, userId: string): seq<Subscription> {
    Filter(existing, (s: Subscription) => IsPairOf(s, userId))
  }

  /** The subscriptions listed for the user; a failed list leaves
      `existingData.data` undefined. */
  function Existing(subs: seq<Subscription>, userId: string, listOk: bool): seq<Subscription> {
    if listOk then ListForUser(subs, userId) else []
  }

  /** The `for` loop over `subscriptionsToCreate`. */
  method CreateEach(api: Remote, toCreate: seq<SubRequest>, createReply: string -> int) returns (failed: bool)
    requires api.Valid()
    modifies api
    ensures api.Valid()
    ensures api.subs == old(api.subs) + Materialize(CreateRun(toCreate, createReply).accepted, old(api.nextId))
    ensures failed == CreateRun(toCreate, createReply).failed
  {
    failed := CreateLoop(api, toCreate, createReply);
    Remote.CreatesKeepValid(api, old(api.subs), CreateRun(toCreate, createReply).accepted, old(api.nextId));
  }

  /** The loop itself, creating one subscription per turn. */
  method CreateLoop(api: Remote, toCreate: seq<SubRequest>, createReply: string -> int) returns (failed: bool)
    modifies api
    ensures api.subs == old(api.subs) + Materialize(CreateRun(toCreate, createReply).accepted, old(api.nextId))
    ensures api.nextId == old(api.nextId) + |CreateRun(toCreate, createReply).accepted|
    ensures failed == CreateRun(toCreate, createReply).failed
  {
    ghost var goal := CreateFrom(api.subs, api.nextId, toCreate, createReply);
    CreateFromRun(api.subs, api.nextId, toCreate, createReply);
    var rest := toCreate;
    while rest != []
      invariant CreateFrom(api.subs, api.nextId, rest, createReply) == goal
    {
      var req := rest[0];
      var status := createReply(req.subType);
      ghost var before := api.subs;
      var created := api.Create(req, status);
      if !created {
        assert api.subs == before + [] && before + [] == before;
      }
      if !IsOk(status) && status != Conflict {
        return true;
      }
      rest := rest[1..];
    }
    return false;
  }

  method ManageTwitchSubscriptions(api: Remote, userId: string, botEnabled: bool, listOk: bool,
                                   createReply: string -> int, deleteOk: nat -> bool)
    returns (r: ManageResult)
    requires api.Valid()
    modifies api
    ensures api.Valid()
    ensures var existing := Existing(old(api.subs), userId, listOk);
            botEnabled && HasEnabled(existing, StreamOnline, userId) && HasEnabled(existing, StreamOffline, userId) ==>
              r == ManageResult(true, Active) && api.subs == old(api.subs)
    ensures var existing := Existing(old(api.subs), userId, listOk);
            var run := CreateRun(MissingRequests(existing, userId), createReply);
            botEnabled && !(HasEnabled(existing, StreamOnline, userId) && HasEnabled(existing, StreamOffline, userId)) ==>
              && api.subs == old(api.subs) + Materialize(run.accepted, old(api.nextId))
              && r == (if run.failed then FailedResult else ManageResult(true, Created))
    ensures !botEnabled && !listOk ==> r == FailedResult && api.subs == old(api.subs)
    ensures !botEnabled && listOk ==>
              && r == ManageResult(true, Disabled)
              && api.subs == WithoutIds(old(api.subs), AcceptedDeletes(DisableTargets(ListForUser(old(api.subs), userId), userId), deleteOk))
  {
    var existing := if listOk then ListForUser(api.subs, userId) else [];
    assert existing == Existing(old(api.subs), userId, listOk);
    if botEnabled {
      var hasOnline := HasEnabled(existing, StreamOnline, userId);
      var hasOffline := HasEnabled(existing, StreamOffline, userId);
      if hasOnline && hasOffline {
        return ManageResult(true, Active);
      }
      var toCreate: seq<SubRequest> := [];
      if !hasOnline {
        toCreate := toCreate + [StreamRequest(StreamOnline, userId)];
      }
      if !hasOffline {
        toCreate := toCreate + [StreamRequest(StreamOffline, userId)];
      }
      assert toCreate == MissingRequests(existing, userId);
      var failed := CreateEach(api, toCreate, createReply);
      if failed {
        return FailedResult;
      }
      return ManageResult(true, Created);
    } else {
      if !listOk {
        return FailedResult;
      }
      var targets := Filter(existing, (s: Subscription) => IsPairOf(s, userId));
      DeleteEach(api, targets, deleteOk);
      return ManageResult(true, Disabled);
    }
  }

  /** Before Twitch has verified them, the subscriptions an enable created
      are pending, so a second enable requests exactly what the first one
      requested, whatever the first run's replies were. */
  lemma ReenableBeforeVerification(subs: seq<Subscription>, userId: string, nextId: nat, createReply: string -> int)
    ensures var reqs := MissingRequests(ListForUser(subs, userId), userId);
            var after := subs + Materialize(CreateRun(reqs, createReply).accepted, nextId);
            MissingRequests(ListForUser(after, userId), userId) == reqs
  {
    var existing := ListForUser(subs, userId);
    var reqs := MissingRequests(existing, userId);
    var accepted := CreateRun(reqs, createReply).accepted;
    var newSubs := Materialize(accepted, nextId);
    var after := subs + newSubs;
    MaterializeAt(accepted, nextId);
    var p := (s: Subscription) => s.condition.broadcasterUserId == userId || s.condition.userId == Some(userId);
    FilterMembers(subs, p);
    FilterMembers(after, p);
    forall subType | subType == StreamOnline || subType == StreamOffline
      ensures HasEnabled(ListForUser(after, userId), subType, userId) == HasEnabled(existing, subType, userId)
    {
      if HasEnabled(ListForUser(after, userId), subType, userId) {
        var s :| s in ListForUser(after, userId) && s.subType == subType
                 && s.condition.broadcasterUserId == userId && s.status == Enabled;
        assert s in subs;
      }
      if HasEnabled(existing, subType, userId) {
        var s :| s in existing && s.subType == subType && s.condition.broadcasterUserId == userId && s.status == Enabled;
        assert s in after;
      }
    }
  }

  /** A second enable before verification re-requests pending members of the
      pair; when Twitch answers those with 409, it creates nothing and does
      not fail. */
  lemma ConflictingReenable(existing: seq<Subscription>, userId: string, createReply: string -> int)
    requires createReply(StreamOnline) == Conflict && createReply(StreamOffline) == Conflict
    ensures CreateRun(MissingRequests(existing, userId), createReply) == CreateOutcome([], false)
  {
    var reqs := MissingRequests(existing, userId);
    if reqs != [] {
      assert CreateRun(reqs, createReply) == CreateRun(reqs[1..], createReply);
      if reqs[1..] != [] {
        assert CreateRun(reqs[1..], createReply) == CreateRun(reqs[2..], createReply);
        assert reqs[2..] == [];
      }
    }
  }

  /** Once Twitch has verified the subscriptions an all-OK enable created,
      both members of the pair are present and enabled, so the next enable
      finds nothing missing and creates nothing. */
  lemma EnableIdempotent(subs: seq<Subscription>, userId: string, nextId: nat, createReply: string -> int)
    requires forall t :: IsOk(createReply(t))
    ensures var reqs := MissingRequests(ListForUser(subs, userId), userId);
            var after := subs + Materialize(CreateRun(reqs, createReply).accepted, nextId);
            MissingRequests(ListForUser(Confirmed(after), userId), userId) == []
  {
    var existing := ListForUser(subs, userId);
    var reqs := MissingRequests(existing, userId);
    var accepted := CreateRun(reqs, createReply).accepted;
    var newSubs := Materialize(accepted, nextId);
    var after := subs + newSubs;
    var confirmed := Confirmed(after);
    MaterializeAt(accepted, nextId);
    var p := (s: Subscription) => s.condition.broadcasterUserId == userId || s.condition.userId == Some(userId);
    FilterMembers(subs, p);
    FilterMembers(confirmed, p);
    ConflictIsSuccess(reqs, createReply);
    forall subType | subType == StreamOnline || subType == StreamOffline
      ensures HasEnabled(ListForUser(confirmed, userId), subType, userId)
    {
      if HasEnabled(existing, subType, userId) {
        var s :| s in existing && s.subType == subType && s.condition.broadcasterUserId == userId && s.status == Enabled;
        var i :| 0 <= i < |subs| && subs[i] == s;
        assert after[i] == s;
        assert confirmed[i] == s;
      } else {
        var req := StreamRequest(subType, userId);
        assert req in reqs;
        var k :| 0 <= k < |accepted| && accepted[k] == req;
        assert after[|subs| + k] == newSubs[k];
        assert confirmed[|subs| + k] == newSubs[k].(status := Enabled);
      }
    }
  }

  /** Disabling never deletes another broadcaster's subscription, nor a
      subscription of another type (chat subscriptions survive). */
  lemma DisableSparesOthers(subs: seq<Subscription>, userId: string, deleteOk: nat -> bool, s: Subscription)
    requires IdsDetermine(subs) && s in subs && !IsPairOf(s, userId)
    ensures s in WithoutIds(subs, AcceptedDeletes(DisableTargets(ListForUser(subs, userId), userId), deleteOk))
  {
    var existing := ListForUser(subs, userId);
    var targets := DisableTargets(existing, userId);
    FilterMembers(subs, (t: Subscription) => t.condition.broadcasterUserId == userId || t.condition.userId == Some(userId));
    FilterMembers(existing, (t: Subscription) => IsPairOf(t, userId));
    AcceptedDeletesOnlyTargets(targets, deleteOk);
    SparesUnselected(subs, AcceptedDeletes(targets, deleteOk), (t: Subscription) => IsPairOf(t, userId), s);
  }

  /** Every online/offline subscription of the broadcaster whose delete the
      remote accepts is gone afterwards. */
  lemma DisableRemovesPair(subs: seq<Subscription>, userId: string, deleteOk: nat -> bool, s: Subscription)
    requires s in subs && IsPairOf(s, userId) && deleteOk(s.id)
    ensures s !in WithoutIds(subs, AcceptedDeletes(DisableTargets(ListForUser(subs, userId), userId), deleteOk))
  {
    var existing := ListForUser(subs, userId);
    var ids := AcceptedDeletes(DisableTargets(existing, userId), deleteOk);
    FilterMembers(subs, (t: Subscription) => t.condition.broadcasterUserId == userId || t.condition.userId == Some(userId));
    FilterMembers(existing, (t: Subscription) => IsPairOf(t, userId));
    FilterMembers(subs, (t: Subscription) => t.id !in ids);
  }
}
