/** Pairing as one request and one answer, against the invite file and the device ledger. */
module Pairing {
  import opened Wrappers
  import opened Election
  import opened Invitations

  datatype Device = Device(id: GrainId, name: string, nodeId: Option<string>)

  datatype AddError = DuplicateName | DuplicateNode | Collision | NotSaved

  /** Why a new record may not join the ledger. */
  function AddRefused(devices: seq<Device>, device: Device): Option<AddError> {
    if exists d :: d in devices && d.name == device.name then Some(DuplicateName)
    else if device.nodeId.Some? && exists d :: d in devices && d.nodeId == device.nodeId then Some(DuplicateNode)
    else if exists d :: d in devices && d.id == device.id then Some(Collision)
    else None
  }

  class Ledger {
    var devices: seq<Device>

    constructor (devices: seq<Device>)
      ensures this.devices == devices
    {
      this.devices := devices;
    }

    method Add(device: Device, writable: bool) returns (r: Result<Device, AddError>)
      modifies this
      ensures r == (match AddRefused(old(devices), device)
                    case Some(e) => Err(e)
                    case None => if writable then Ok(device) else Err(NotSaved))
      ensures devices == if r.Ok? then old(devices) + [device] else old(devices)
      ensures r.Ok? <==> writable && forall d | d in old(devices) ::
                d.name != device.name && d.id != device.id && (device.nodeId.Some? ==> d.nodeId != device.nodeId)
    {
      var refused := AddRefused(devices, device);
      if refused.Some? {
        return Err(refused.value);
      }
      if !writable {
        return Err(NotSaved);
      }
      devices := devices + [device];
      r := Ok(device);
    }
  }

  datatype Request = Request(secret: Secret, deviceName: string, nodeId: string)

  datatype Why = NotInvited(refusal: Refusal) | NodeKnown | NotAdded(error: AddError)

  datatype Response = Admitted(device: Device, inviter: Device) | Rejected(why: Why)

  datatype Trouble = NoRequest | LedgerUnreadable | ReplyLost

  /** What an attempt meets: the clock, the disk, the id that is drawn, whether the reply gets through. */
  datatype Luck = Luck(now: int, disk: Disk, id: GrainId, readable: bool, writable: bool, replied: bool)

  /** The invites and the ledger after an attempt, the answer given, and what the inviter is told. */
  datatype Outcome = Outcome(invites: seq<Invite>, devices: seq<Device>, answer: Option<Response>,
      result: Result<Option<Device>, Trouble>)

  function Answered(invites: seq<Invite>, devices: seq<Device>, answer: Response, replied: bool): Outcome {
    Outcome(invites, devices, Some(answer),
            if !replied then Err(ReplyLost) else Ok(if answer.Admitted? then Some(answer.device) else None))
  }

  function TakeOf(request: Request, luck: Luck): Op {
    Op.Take(request.secret, Some(request.deviceName), luck.now, luck.disk)
  }

  function RecordOf(request: Request, luck: Luck): Device {
    Device(luck.id, request.deviceName, Some(request.nodeId))
  }

  /** Why an attempt that offers a good invite is turned away all the same. */
  function TurnedAway(devices: seq<Device>, request: Request, luck: Luck): Option<Why> {
    if exists d :: d in devices && d.nodeId == Some(request.nodeId) then Some(NodeKnown)
    else
      match AddRefused(devices, RecordOf(request, luck))
      case Some(e) => Some(NotAdded(e))
      case None => if luck.writable then None else Some(NotAdded(NotSaved))
  }

  function RefusalOf(invites: seq<Invite>, request: Request, luck: Luck): Refusal
    requires !Takes(invites, TakeOf(request, luck))
  {
    if !luck.disk.readable then Unreadable
    else
      var found := Match(invites, request.secret, Some(request.deviceName), luck.now);
      if found.Err? then found.error else NotWritten
  }

  /** Spend the invite, then add the record, then reply, and stop at the first that fails. */
  function Admitting(invites: seq<Invite>, devices: seq<Device>, request: Option<Request>, inviter: Device,
                     luck: Luck): Outcome {
    if request.None? then Outcome(invites, devices, None, Err(NoRequest))
    else
      var take := TakeOf(request.value, luck);
      if !Takes(invites, take)
      then Answered(invites, devices, Rejected(NotInvited(RefusalOf(invites, request.value, luck))), luck.replied)
      else
        var spent := Step(invites, take);
        if !luck.readable then Outcome(spent, devices, None, Err(LedgerUnreadable))
        else
          match TurnedAway(devices, request.value, luck)
          case Some(why) => Answered(spent, devices, Rejected(why), luck.replied)
          case None =>
            var device := RecordOf(request.value, luck);
            Answered(spent, devices + [device], Admitted(device, inviter), luck.replied)
  }

  method Admit(invites: Invites, ledger: Ledger, request: Option<Request>, inviter: Device, luck: Luck)
    returns (answer: Option<Response>, result: Result<Option<Device>, Trouble>)
    modifies invites, invites.file, ledger
    ensures Outcome(invites.file.entries, ledger.devices, answer, result)
            == Admitting(old(invites.file.entries), old(ledger.devices), request, inviter, luck)
  {
    if request.None? {
      return None, Err(NoRequest);
    }
    var r := request.value;
    var redeemed := invites.Take(r.secret, Some(r.deviceName), luck.now, luck.disk);
    if redeemed.Err? {
      answer := Some(Rejected(NotInvited(redeemed.error)));
      return answer, if luck.replied then Ok(None) else Err(ReplyLost);
    }
    if !luck.readable {
      return None, Err(LedgerUnreadable);
    }
    if exists d :: d in ledger.devices && d.nodeId == Some(r.nodeId) {
      answer := Some(Rejected(NodeKnown));
      return answer, if luck.replied then Ok(None) else Err(ReplyLost);
    }
    var added := ledger.Add(Device(luck.id, r.deviceName, Some(r.nodeId)), luck.writable);
    if added.Err? {
      answer := Some(Rejected(NotAdded(added.error)));
      return answer, if luck.replied then Ok(None) else Err(ReplyLost);
    }
    answer := Some(Admitted(added.value, inviter));
    result := if luck.replied then Ok(Some(added.value)) else Err(ReplyLost);
  }

  // ----- one attempt -----

  /**
   * Who is admitted: whoever offers an invite that is good for its name, on files that work, with
   * a name, a node id and a drawn id the ledger does not have. The record is the joiner's own.
   */
  lemma AdmittedIff(invites: seq<Invite>, devices: seq<Device>, request: Option<Request>, inviter: Device, luck: Luck)
    ensures var o := Admitting(invites, devices, request, inviter, luck);
            o.answer.Some? && o.answer.value.Admitted? <==>
            && request.Some?
            && luck.disk.readable && luck.disk.writable && luck.readable && luck.writable
            && Match(invites, request.value.secret, Some(request.value.deviceName), luck.now).Ok?
            && forall d | d in devices ::
              d.name != request.value.deviceName && d.id != luck.id && d.nodeId != Some(request.value.nodeId)
    ensures var o := Admitting(invites, devices, request, inviter, luck);
            o.answer.Some? && o.answer.value.Admitted? ==>
              o.answer == Some(Admitted(Device(luck.id, request.value.deviceName, Some(request.value.nodeId)), inviter))
  {
    hide Match;
  }

  /** What a joiner that is not admitted is told, in the order in which it is looked at, and what the inviter is. */
  lemma WhatIsAnswered(invites: seq<Invite>, devices: seq<Device>, request: Option<Request>, inviter: Device,
                       luck: Luck)
    ensures var o := Admitting(invites, devices, request, inviter, luck);
            request.Some? && !(o.answer.Some? && o.answer.value.Admitted?) ==>
              var r := request.value;
              var found := Match(invites, r.secret, Some(r.deviceName), luck.now);
              o.answer ==
              if !luck.disk.readable then Some(Rejected(NotInvited(Unreadable)))
              else if found.Err? then Some(Rejected(NotInvited(found.error)))
              else if !luck.disk.writable then Some(Rejected(NotInvited(NotWritten)))
              else if !luck.readable then None
              else if exists d :: d in devices && d.nodeId == Some(r.nodeId) then Some(Rejected(NodeKnown))
              else if exists d :: d in devices && d.name == r.deviceName then Some(Rejected(NotAdded(DuplicateName)))
              else if exists d :: d in devices && d.id == luck.id then Some(Rejected(NotAdded(Collision)))
              else Some(Rejected(NotAdded(NotSaved)))
    ensures var o := Admitting(invites, devices, request, inviter, luck);
            o.result ==
            if request.None? then Err(NoRequest)
            else if o.answer.None? then Err(LedgerUnreadable)
            else if !luck.replied then Err(ReplyLost)
            else if o.answer.value.Admitted? then Ok(Some(o.answer.value.device))
            else Ok(None)
  {
    hide Match;
  }

  /**
   * The ledger gains the joiner's record exactly when it is admitted, whether or not the reply gets
   * through; a rejection leaves it as it was.
   */
  lemma AdmittedIffRecorded(invites: seq<Invite>, devices: seq<Device>, request: Option<Request>, inviter: Device,
                            luck: Luck)
    ensures var o := Admitting(invites, devices, request, inviter, luck);
            if o.answer.Some? && o.answer.value.Admitted?
            then o.devices == devices + [o.answer.value.device] && Takes(invites, TakeOf(request.value, luck))
                 && o.answer.value.device.name == request.value.deviceName
                 && o.answer.value.device.nodeId == Some(request.value.nodeId)
            else o.devices == devices
  {
  }

  /**
   * An invite that would work for `name` at some later time still does after an attempt that was
   * rejected before then, exactly when the attempt gave another name or the invite file failed it:
   * a name or a node id that the ledger has already costs the joiner its invite.
   */
  lemma ARejectedInviteStillWorksIff(invites: seq<Invite>, devices: seq<Device>, request: Request, inviter: Device,
                                     luck: Luck,
                                     name: string, later: int)
    requires Match(invites, request.secret, Some(name), later).Ok? && luck.now <= later
    requires var o := Admitting(invites, devices, Some(request), inviter, luck);
             o.answer.Some? && o.answer.value.Rejected?
    ensures var after := Admitting(invites, devices, Some(request), inviter, luck).invites;
            Match(after, request.secret, Some(name), later).Ok? <==> request.deviceName != name || !Works(luck.disk)
  {
    var i := Match(invites, request.secret, Some(name), later).value;
    if Takes(invites, TakeOf(request, luck)) {
      UsedIsFoundUsed(invites, i, luck.now);
    }
  }

  lemma UsedIsFoundUsed(invites: seq<Invite>, i: nat, now: int)
    requires i < |invites| && Find(invites, invites[i].secret) == Some(i)
    ensures Find(Used(invites, i, now), invites[i].secret) == Some(i)
  {
    var used := Used(invites, i, now);
    var secret := invites[i].secret;
    assert used[i].secret == secret;
    assert forall j | 0 <= j < i :: used[j] == invites[j];
  }

  /** A joiner turned away for a name the ledger has already: rejected, and its invite is spent. */
  lemma ATakenNameSpendsTheInvite(inviter: Device)
    ensures var invite := Invite(1, 7, "laptop", 10, None);
            var luck := Luck(0, Disk(true, true), 2, true, true, true);
            var o := Admitting([invite], [Device(1, "laptop", None)], Some(Request(7, "laptop", "node")), inviter,
                luck);
            && o.answer == Some(Rejected(NotAdded(DuplicateName)))
            && o.devices == [Device(1, "laptop", None)]
            && Match(o.invites, 7, Some("laptop"), 1) == Err(AlreadyUsed)
  {
    var invite := Invite(1, 7, "laptop", 10, None);
    assert Find([invite][..0], 7) == None;
    assert Find([invite], 7) == Some(0);
    var devices := [Device(1, "laptop", None)];
    assert devices[0] in devices && devices[0].name == "laptop";
    UsedIsFoundUsed([invite], 0, 0);
  }

  ghost predicate Distinct(devices: seq<Device>) {
    && (forall i, j | 0 <= i < j < |devices| :: devices[i].name != devices[j].name && devices[i].id != devices[j].id)
    && (forall i, j | 0 <= i < j < |devices| && devices[i].nodeId.Some? :: devices[i].nodeId != devices[j].nodeId)
  }

  /** Names, ids and node ids in the ledger stay distinct. */
  lemma AdmittingKeepsDistinct(invites: seq<Invite>, devices: seq<Device>, request: Option<Request>, inviter: Device,
                               luck: Luck)
    requires Distinct(devices)
    ensures Distinct(Admitting(invites, devices, request, inviter, luck).devices)
  {
    hide Takes, Step;
    var after := Admitting(invites, devices, request, inviter, luck).devices;
    if after != devices {
      var device := RecordOf(request.value, luck);
      assert AddRefused(devices, device).None?;
      forall i | 0 <= i < |devices|
        ensures devices[i].name != device.name && devices[i].id != device.id && devices[i].nodeId != device.nodeId
      {
        assert devices[i] in devices;
      }
    }
  }

  // ----- runs: invites issued, pruned and offered -----

  datatype Event = OfInvites(op: Op) | Join(request: Option<Request>, inviter: Device, luck: Luck)

  datatype State = State(invites: seq<Invite>, devices: seq<Device>)

  function After(start: seq<Device>, events: seq<Event>): State {
    if events == [] then State([], start)
    else
      var s := After(start, events[..|events| - 1]);
      match events[|events| - 1]
      case OfInvites(op) => s.(invites := Step(s.invites, op))
      case Join(request, inviter, luck) =>
        var o := Admitting(s.invites, s.devices, request, inviter, luck);
        State(o.invites, o.devices)
  }

  /** What a run does to the invite file. */
  function InviteOps(events: seq<Event>): seq<Op> {
    if events == [] then []
    else
      var before := InviteOps(events[..|events| - 1]);
      match events[|events| - 1]
      case OfInvites(op) => before + [op]
      case Join(request, _, luck) => if request.None? then before else before + [TakeOf(request.value, luck)]
  }

  lemma {:induction false} InvitesOfARun(start: seq<Device>, events: seq<Event>)
    ensures After(start, events).invites == Invitations.After(InviteOps(events))
  {
    if events != [] {
      var front, e := events[..|events| - 1], events[|events| - 1];
      InvitesOfARun(start, front);
      var before, ops := InviteOps(front), InviteOps(events);
      assert ops != before ==> ops[..|ops| - 1] == before;
    }
  }

  /** How many records a run adds to the ledger for one invite's secret. */
  function Admissions(start: seq<Device>, events: seq<Event>, secret: Secret): nat {
    if events == [] then 0
    else
      var front, e := events[..|events| - 1], events[|events| - 1];
      var s := After(start, front);
      Admissions(start, front, secret)
      + if e.Join? && e.request.Some? && e.request.value.secret == secret
           && Admitting(s.invites, s.devices, e.request, e.inviter, e.luck).devices != s.devices then 1 else 0
  }

  lemma {:induction false} AdmissionsAreRedeemed(start: seq<Device>, events: seq<Event>, secret: Secret)
    ensures Admissions(start, events, secret) <= Redemptions(InviteOps(events), secret)
  {
    if events != [] {
      var front, e := events[..|events| - 1], events[|events| - 1];
      AdmissionsAreRedeemed(start, front, secret);
      InvitesOfARun(start, front);
      var before, ops := InviteOps(front), InviteOps(events);
      assert ops != before ==> ops[..|ops| - 1] == before;
      if e.Join? {
        var s := After(start, front);
        AdmittedIffRecorded(s.invites, s.devices, e.request, e.inviter, e.luck);
      }
    }
  }

  /** Over any run, an invite puts at most one record in the ledger. */
  lemma OneRecordPerInvite(start: seq<Device>, events: seq<Event>, secret: Secret, now: int)
    requires Legal(InviteOps(events), now)
    ensures Admissions(start, events, secret) <= 1
  {
    AdmissionsAreRedeemed(start, events, secret);
    RedeemedAtMostOnce(InviteOps(events), secret, now);
  }

  /** A record that joins the ledger has the name its inviter issued the invite for. */
  lemma TheInviterKnowsTheName(start: seq<Device>, events: seq<Event>, request: Request, inviter: Device, luck: Luck)
    requires Legal(InviteOps(events), luck.now)
    requires var s := After(start, events);
             Admitting(s.invites, s.devices, Some(request), inviter, luck).devices != s.devices
    ensures exists invite ::
      Issued(InviteOps(events), invite) && invite.secret == request.secret && invite.deviceName == request.deviceName
    ensures RecordOf(request, luck).name == request.deviceName
  {
    var s := After(start, events);
    InvitesOfARun(start, events);
    AdmittedIffRecorded(s.invites, s.devices, Some(request), inviter, luck);
    AnInviteWorksOnceInTimeForItsName(InviteOps(events), request.secret, request.deviceName, luck.now);
  }

  lemma {:induction false} TheLedgerStaysDistinct(start: seq<Device>, events: seq<Event>)
    requires Distinct(start)
    ensures Distinct(After(start, events).devices) && start <= After(start, events).devices
  {
    if events != [] {
      var front, e := events[..|events| - 1], events[|events| - 1];
      TheLedgerStaysDistinct(start, front);
      var s := After(start, front);
      if e.Join? {
        AdmittingKeepsDistinct(s.invites, s.devices, e.request, e.inviter, e.luck);
        AdmittedIffRecorded(s.invites, s.devices, e.request, e.inviter, e.luck);
      }
    }
  }

  /** The joiner's attempt spends its invite, and is turned away all the same. */
  ghost predicate SpentInVain(s: State, e: Event) {
    && e.Join? && e.request.Some?
    && Takes(s.invites, TakeOf(e.request.value, e.luck))
    && TurnedAway(s.devices, e.request.value, e.luck).Some?
  }

  lemma {:induction false} RedemptionsGrow(before: seq<Event>, more: seq<Event>, secret: Secret)
    ensures Redemptions(InviteOps(before), secret) <= Redemptions(InviteOps(before + more), secret)
    decreases |more|
  {
    if more == [] {
      assert before + more == before;
    } else {
      var front := more[..|more| - 1];
      RedemptionsGrow(before, front, secret);
      assert (before + more)[..|before + more| - 1] == before + front;
      var ops, longer := InviteOps(before + front), InviteOps(before + more);
      assert longer != ops ==> longer[..|longer| - 1] == ops;
    }
  }

  lemma RedeemsOneMore(start: seq<Device>, events: seq<Event>, e: Event)
    requires e.Join? && e.request.Some? && Takes(After(start, events).invites, TakeOf(e.request.value, e.luck))
    ensures Redemptions(InviteOps(events + [e]), e.request.value.secret) ==
        Redemptions(InviteOps(events), e.request.value.secret) + 1
  {
    InvitesOfARun(start, events);
    assert (events + [e])[..|events|] == events;
    var ops, longer := InviteOps(events), InviteOps(events + [e]);
    assert longer == ops + [TakeOf(e.request.value, e.luck)] && longer[..|longer| - 1] == ops;
  }

  /**
   * Once an attempt has spent its invite in vain nobody is admitted with that secret any more,
   * under any name, whatever comes between.
   */
  lemma SpentInVainIsSpentForGood(start: seq<Device>, events: seq<Event>, e: Event, more: seq<Event>, again: Event,
                                  now: int)
    requires SpentInVain(After(start, events), e)
    requires again.Join? && again.request.Some? && again.request.value.secret == e.request.value.secret
    requires Legal(InviteOps(events + [e] + more + [again]), now)
    ensures var s := After(start, events + [e] + more);
            Admitting(s.invites, s.devices, again.request, again.inviter, again.luck).devices == s.devices
  {
    hide Legal, Redemptions, InviteOps, After, SpentInVain;
    SpentTakes(After(start, events), e);
    var secret := e.request.value.secret;
    var middle := events + [e] + more;
    var s := After(start, middle);
    RedeemsOneMore(start, events, e);
    RedemptionsGrow(events + [e], more, secret);
    RedeemedAtMostOnce(InviteOps(middle + [again]), secret, now);
    if Takes(s.invites, TakeOf(again.request.value, again.luck)) {
      RedeemsOneMore(start, middle, again);
      assert false;
    }
    AdmittedIffRecorded(s.invites, s.devices, again.request, again.inviter, again.luck);
  }

  lemma SpentTakes(s: State, e: Event)
    requires SpentInVain(s, e)
    ensures e.Join? && e.request.Some? && Takes(s.invites, TakeOf(e.request.value, e.luck))
  {
  }

  /** After an attempt under a wrong name, the right one is admitted as it would have been without it. */
  lemma AWrongNameCanBeCorrected(start: seq<Device>, events: seq<Event>, wrong: Event, right: Request, inviter: Device,
                                 luck: Luck)
    requires wrong.Join? && wrong.request.Some?
    requires wrong.request.value.secret == right.secret && wrong.request.value.deviceName != right.deviceName
    requires var s := After(start, events);
             && Takes(s.invites, TakeOf(right, luck)) && luck.readable && TurnedAway(s.devices, right, luck).None?
    ensures After(start, events + [wrong]) == After(start, events)
    ensures var s := After(start, events + [wrong]);
            && Admitting(s.invites, s.devices, Some(right), inviter, luck).answer ==
                Some(Admitted(RecordOf(right, luck), inviter))
            && Admitting(s.invites, s.devices, Some(right), inviter, luck).devices ==
                s.devices + [RecordOf(right, luck)]
  {
    assert (events + [wrong])[..|events|] == events;
    var s := After(start, events);
    assert !Takes(s.invites, TakeOf(wrong.request.value, wrong.luck));
  }
}
