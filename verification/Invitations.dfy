/** The invite file: invitations that work once, in time and for the device they name. */
module Invitations {
  import opened Wrappers
  import opened Election

  /** All that matters of a secret is which one it is. */
  type Secret = nat

  /** Times are instants of the wall clock. */
  datatype Invite = Invite(id: GrainId, secret: Secret, deviceName: string, expiresAt: int, usedAt: Option<int>)

  predicate IsLive(i: Invite, now: int) {
    i.usedAt.None? && i.expiresAt > now
  }

  datatype Refusal = NoMatch | AlreadyUsed | Expired | AnotherName(issuedFor: string) | Unreadable | NotWritten

  /** What reading and writing the file come to. */
  datatype Disk = Disk(readable: bool, writable: bool)

  /** The first invite with that secret. */
  function Find(entries: seq<Invite>, secret: Secret): (r: Option<nat>)
    ensures r.Some? ==> r.value < |entries| && entries[r.value].secret == secret
    ensures r.Some? ==> forall j | 0 <= j < r.value :: entries[j].secret != secret
    ensures r.None? ==> forall j | 0 <= j < |entries| :: entries[j].secret != secret
  {
    if entries == [] then None
    else
      var front := entries[..|entries| - 1];
      var before := Find(front, secret);
      assert forall j | 0 <= j < |front| :: front[j] == entries[j];
      if before.Some? then before
      else if entries[|front|].secret == secret then Some(|front|)
      else None
  }

  /** Which invite an attempt uses up, or why none. A `None` name is not checked. */
  function Match(entries: seq<Invite>, secret: Secret, name: Option<string>, now: int): (r: Result<nat, Refusal>)
    ensures r.Ok? ==> r.value < |entries| && Find(entries, secret) == Some(r.value)
  {
    match Find(entries, secret)
    case None => Err(NoMatch)
    case Some(i) =>
      if entries[i].usedAt.Some? then Err(AlreadyUsed)
      else if entries[i].expiresAt <= now then Err(Expired)
      else if name.Some? && name.value != entries[i].deviceName then Err(AnotherName(entries[i].deviceName))
      else Ok(i)
  }

  function Used(entries: seq<Invite>, i: nat, now: int): seq<Invite>
    requires i < |entries|
  {
    entries[i := entries[i].(usedAt := Some(now))]
  }

  function Pruned(entries: seq<Invite>, now: int): (r: seq<Invite>)
    ensures forall i :: i in r <==> i in entries && IsLive(i, now)
    ensures |r| <= |entries|
    ensures |r| == |entries| ==> r == entries
  {
    if entries == [] then []
    else
      var rest := Pruned(entries[1..], now);
      assert entries == [entries[0]] + entries[1..];
      if IsLive(entries[0], now) then [entries[0]] + rest else rest
  }

  /** The file itself, shared by every handle on it. */
  class InviteFile {
    var entries: seq<Invite>

    constructor ()
      ensures entries == []
    {
      entries := [];
    }
  }

  /** One process's handle on the file. */
  class Invites {
    const file: InviteFile
    var entries: seq<Invite>

    constructor Load(file: InviteFile)
      ensures this.file == file && entries == file.entries
    {
      this.file := file;
      this.entries := file.entries;
    }

    method Reload(disk: Disk) returns (ok: bool)
      modifies this
      ensures ok == disk.readable
      ensures entries == if ok then file.entries else old(entries)
    {
      ok := disk.readable;
      if ok {
        entries := file.entries;
      }
    }

    method Save(next: seq<Invite>, disk: Disk) returns (ok: bool)
      modifies this, file
      ensures ok == disk.writable
      ensures if ok then file.entries == entries == next
              else file.entries == old(file.entries) && entries == old(entries)
    {
      ok := disk.writable;
      if ok {
        file.entries := next;
        entries := next;
      }
    }

    /** Issue an invite; its id, its secret and its expiry are drawn by the caller. */
    method Create(invite: Invite, disk: Disk) returns (r: Result<(), Refusal>)
      modifies this, file
      ensures r == if !disk.readable then Err(Unreadable) else if !disk.writable then Err(NotWritten) else Ok(())
      ensures file.entries == if r.Ok? then old(file.entries) + [invite] else old(file.entries)
      ensures file.entries == Step(old(file.entries), Op.Create(invite, disk))
      ensures disk.readable ==> entries == file.entries
    {
      var reloaded := Reload(disk);
      if !reloaded {
        return Err(Unreadable);
      }
      var saved := Save(entries + [invite], disk);
      r := if saved then Ok(()) else Err(NotWritten);
    }

    /** A redemption: `Match` picks the entry that goes. The scan does not stop at it. */
    method Take(secret: Secret, name: Option<string>, now: int, disk: Disk) returns (r: Result<Invite, Refusal>)
      modifies this, file
      ensures var found := Match(old(file.entries), secret, name, now);
              && (r.Ok? <==> disk.readable && disk.writable && found.Ok?)
              && (r.Ok? ==>
                  file.entries == Used(old(file.entries), found.value, now) && r.value == file.entries[found.value])
              && (r.Err? ==> file.entries == old(file.entries))
              && (r.Err? ==>
                  r.error == (if !disk.readable then Unreadable else if found.Err? then found.error else NotWritten))
      ensures file.entries == Step(old(file.entries), Op.Take(secret, name, now, disk))
      ensures disk.readable ==> entries == file.entries
    {
      var reloaded := Reload(disk);
      if !reloaded {
        return Err(Unreadable);
      }
      var found: Option<nat> := None;
      for i := 0 to |entries|
        invariant unchanged(file) && entries == file.entries
        invariant found == Find(entries[..i], secret)
      {
        assert entries[..i + 1][..i] == entries[..i];
        if entries[i].secret == secret && found.None? {
          found := Some(i);
        }
      }
      assert entries[..|entries|] == entries;
      if found.None? {
        return Err(NoMatch);
      }
      var i := found.value;
      if entries[i].usedAt.Some? {
        return Err(AlreadyUsed);
      }
      if entries[i].expiresAt <= now {
        return Err(Expired);
      }
      if name.Some? && name.value != entries[i].deviceName {
        return Err(AnotherName(entries[i].deviceName));
      }
      var next := entries[i := entries[i].(usedAt := Some(now))];
      var saved := Save(next, disk);
      r := if saved then Ok(next[i]) else Err(NotWritten);
    }

    /** Keep what is live; the result counts the rest. */
    method Prune(now: int, disk: Disk) returns (r: Result<nat, Refusal>)
      modifies this, file
      ensures var kept := Pruned(old(file.entries), now);
              && r == (if !disk.readable then Err(Unreadable)
                       else if kept != old(file.entries) && !disk.writable then Err(NotWritten)
                       else Ok(|old(file.entries)| - |kept|))
              && file.entries == if r.Ok? then kept else old(file.entries)
      ensures file.entries == Step(old(file.entries), Op.Prune(now, disk))
      ensures r.Ok? ==>
                forall i :: i in file.entries <==> i in old(file.entries) && i.usedAt.None? && i.expiresAt > now
      ensures disk.readable ==> entries == file.entries
    {
      var reloaded := Reload(disk);
      if !reloaded {
        return Err(Unreadable);
      }
      var next := Pruned(entries, now);
      var removed := |entries| - |next|;
      if removed > 0 {
        var saved := Save(next, disk);
        if !saved {
          return Err(NotWritten);
        }
      }
      r := Ok(removed);
    }
  }

  /** Pruning drops entries and moves none: what stays is what stays of any two parts, one after the other. */
  lemma {:induction false} PrunedParts(a: seq<Invite>, b: seq<Invite>, now: int)
    ensures Pruned(a + b, now) == Pruned(a, now) + Pruned(b, now)
    decreases |a|
  {
    if a == [] {
      assert a + b == b;
    } else {
      hide IsLive;
      var rest := a[1..];
      assert (a + b)[0] == a[0] && (a + b)[1..] == rest + b;
      PrunedParts(rest, b, now);
      assert [a[0]] + (Pruned(rest, now) + Pruned(b, now)) == [a[0]] + Pruned(rest, now) + Pruned(b, now);
    }
  }

  // ----- runs: operations of any handles, one after another -----

  /** A whole operation of some handle, on a disk that may fail it. */
  datatype Op =
    | Create(invite: Invite, disk: Disk)
    | Take(secret: Secret, name: Option<string>, now: int, disk: Disk)
    | Prune(now: int, disk: Disk)

  predicate Works(disk: Disk) { disk.readable && disk.writable }

  predicate Takes(entries: seq<Invite>, op: Op) {
    op.Take? && Works(op.disk) && Match(entries, op.secret, op.name, op.now).Ok?
  }

  /** The file after an operation. */
  function Step(entries: seq<Invite>, op: Op): seq<Invite> {
    match op
    case Create(invite, disk) => if Works(disk) then entries + [invite] else entries
    case Take(secret, name, now, disk) => if Takes(entries, op)
      then Used(entries, Match(entries, secret, name, now).value, now) else entries
    case Prune(now, disk) => if Works(disk) then Pruned(entries, now) else entries
  }

  function After(ops: seq<Op>): seq<Invite> {
    if ops == [] then [] else Step(After(ops[..|ops| - 1]), ops[|ops| - 1])
  }

  /** How often a secret was issued, and how often it was redeemed. */
  function Issues(ops: seq<Op>, secret: Secret): nat {
    if ops == [] then 0
    else
      var op := ops[|ops| - 1];
      Issues(ops[..|ops| - 1], secret) + if op.Create? && Works(op.disk) && op.invite.secret == secret then 1 else 0
  }

  function Redemptions(ops: seq<Op>, secret: Secret): nat {
    if ops == [] then 0
    else
      var op := ops[|ops| - 1];
      Redemptions(ops[..|ops| - 1], secret) + if Takes(After(ops[..|ops| - 1]), op) && op.secret == secret then 1 else 0
  }

  /** How many entries could still be redeemed under a secret, time aside. */
  function Unused(entries: seq<Invite>, secret: Secret): nat {
    if entries == [] then 0
    else
      var last := entries[|entries| - 1];
      Unused(entries[..|entries| - 1], secret) + if last.secret == secret && last.usedAt.None? then 1 else 0
  }

  lemma {:induction false} UnusedParts(a: seq<Invite>, b: seq<Invite>, secret: Secret)
    ensures Unused(a + b, secret) == Unused(a, secret) + Unused(b, secret)
    decreases |b|
  {
    if b == [] {
      assert a + b == a;
    } else {
      assert (a + b)[..|a + b| - 1] == a + b[..|b| - 1];
      UnusedParts(a, b[..|b| - 1], secret);
    }
  }

  lemma UnusedAfterUse(entries: seq<Invite>, i: nat, now: int, secret: Secret)
    requires i < |entries| && entries[i].usedAt.None?
    ensures Unused(Used(entries, i, now), secret) ==
            Unused(entries, secret) - if entries[i].secret == secret then 1 else 0
  {
    var before, after := entries[..i], entries[i + 1..];
    var used := entries[i].(usedAt := Some(now));
    assert entries == before + [entries[i]] + after && Used(entries, i, now) == before + [used] + after;
    UnusedParts(before + [entries[i]], after, secret);
    UnusedParts(before + [used], after, secret);
    UnusedParts(before, [entries[i]], secret);
    UnusedParts(before, [used], secret);
    UnusedOne(entries[i], secret);
    UnusedOne(used, secret);
  }

  lemma UnusedOne(i: Invite, secret: Secret)
    ensures Unused([i], secret) == if i.secret == secret && i.usedAt.None? then 1 else 0
  {
    assert [i][..0] == [];
  }

  lemma {:induction false} UnusedAfterPrune(entries: seq<Invite>, now: int, secret: Secret)
    ensures Unused(Pruned(entries, now), secret) <= Unused(entries, secret)
    decreases |entries|
  {
    if entries != [] {
      UnusedAfterPrune(entries[1..], now, secret);
      UnusedParts([entries[0]], entries[1..], secret);
      UnusedParts([entries[0]], Pruned(entries[1..], now), secret);
      assert entries == [entries[0]] + entries[1..];
    }
  }

  /** Every redemption uses an issue up. */
  lemma {:induction false} RedemptionsAreIssued(ops: seq<Op>, secret: Secret)
    ensures Redemptions(ops, secret) + Unused(After(ops), secret) <= Issues(ops, secret)
  {
    if ops != [] {
      var front, op := ops[..|ops| - 1], ops[|ops| - 1];
      var entries := After(front);
      RedemptionsAreIssued(front, secret);
      match op
      case Create(invite, _) =>
        UnusedParts(entries, [invite], secret);
        UnusedOne(invite, secret);
      case Take(_, _, now, _) =>
        if Takes(entries, op) {
          UnusedAfterUse(entries, Match(entries, op.secret, op.name, now).value, now, secret);
        }
      case Prune(now, _) => UnusedAfterPrune(entries, now, secret);
    }
  }

  // ----- an invite works once, in time, for the device it names -----

  /** The file accepted the invite. */
  ghost predicate Issued(ops: seq<Op>, invite: Invite) {
    exists op :: op in ops && op.Create? && Works(op.disk) && op.invite == invite
  }

  function TimeOf(op: Op): Option<int> {
    if op.Create? then None else Some(op.now)
  }

  /** Secrets are drawn fresh, invites start unused, and no clock has read later than `now`. */
  ghost predicate Legal(ops: seq<Op>, now: int) {
    && (forall secret :: Issues(ops, secret) <= 1)
    && (forall op | op in ops && op.Create? :: op.invite.usedAt.None?)
    && (forall op | op in ops && TimeOf(op).Some? :: TimeOf(op).value <= now)
  }

  lemma LegalFront(ops: seq<Op>, now: int)
    requires ops != [] && Legal(ops, now)
    ensures Legal(ops[..|ops| - 1], now)
  {
    var front := ops[..|ops| - 1];
    forall secret ensures Issues(front, secret) <= 1 {
      assert Issues(ops, secret) <= 1;
    }
    assert forall op | op in front :: op in ops;
  }

  lemma {:induction false} IssuedCounts(ops: seq<Op>, a: Invite)
    ensures Issued(ops, a) ==> Issues(ops, a.secret) > 0
  {
    if Issued(ops, a) {
      var front, last := ops[..|ops| - 1], ops[|ops| - 1];
      assert ops == front + [last];
      var op :| op in ops && op.Create? && Works(op.disk) && op.invite == a;
      if op in front {
        assert Issued(front, a);
        IssuedCounts(front, a);
      }
    }
  }

  lemma {:induction false} OneIssueEach(ops: seq<Op>, a: Invite, b: Invite)
    requires Issued(ops, a) && Issued(ops, b) && a.secret == b.secret && Issues(ops, a.secret) <= 1
    ensures a == b
  {
    var front, last := ops[..|ops| - 1], ops[|ops| - 1];
    assert ops == front + [last];
    IssuedCounts(front, a);
    IssuedCounts(front, b);
    if Issued(front, a) && Issued(front, b) {
      OneIssueEach(front, a, b);
    }
  }

  /** What an entry was when it was issued. */
  function Original(i: Invite): Invite {
    i.(usedAt := None)
  }

  /** Every entry was issued, and one that is used was redeemed. */
  ghost predicate Traced(ops: seq<Op>) {
    forall i | i in After(ops) :: Issued(ops, Original(i)) && (i.usedAt.Some? ==> Redemptions(ops, i.secret) > 0)
  }

  lemma {:induction false} EntriesAreTraced(ops: seq<Op>, now: int)
    requires Legal(ops, now)
    ensures Traced(ops)
  {
    hide Issues, Redemptions;
    if ops != [] {
      var front, op := ops[..|ops| - 1], ops[|ops| - 1];
      assert ops == front + [op];
      LegalFront(ops, now);
      EntriesAreTraced(front, now);
      forall i | i in After(ops)
        ensures Issued(ops, Original(i)) && (i.usedAt.Some? ==> Redemptions(ops, i.secret) > 0)
      {
        EntryIsTraced(front, op, i);
      }
    }
  }

  lemma EntryIsTraced(front: seq<Op>, op: Op, i: Invite)
    requires Traced(front) && i in Step(After(front), op)
    requires op.Create? ==> op.invite.usedAt.None?
    ensures Issued(front + [op], Original(i)) && (i.usedAt.Some? ==> Redemptions(front + [op], i.secret) > 0)
  {
    hide After, Issues;
    var ops := front + [op];
    var entries := After(front);
    assert ops[..|ops| - 1] == front && ops[|ops| - 1] == op;
    assert forall x | Issued(front, x) :: Issued(ops, x) by {
      forall x | Issued(front, x) ensures Issued(ops, x) {
        var o :| o in front && o.Create? && Works(o.disk) && o.invite == x;
        assert o in ops;
      }
    }
    if i !in entries {
      if op.Create? {
        assert op in ops && Original(i) == op.invite;
      } else {
        var k := Match(entries, op.secret, op.name, op.now).value;
        assert entries[k] in entries;
        assert i == entries[k].(usedAt := Some(op.now));
      }
    }
  }

  /** An invite that is issued stays in the file, unused, until it is redeemed or its time is over. */
  lemma {:induction false} LiveInvitesStay(ops: seq<Op>, invite: Invite, now: int)
    requires Legal(ops, now) && Issued(ops, invite)
    requires Redemptions(ops, invite.secret) == 0 && now < invite.expiresAt
    ensures invite in After(ops)
  {
    var front, op := ops[..|ops| - 1], ops[|ops| - 1];
    assert ops == front + [op];
    LegalFront(ops, now);
    var o :| o in ops && o.Create? && Works(o.disk) && o.invite == invite;
    if o in front {
      assert Issued(front, invite);
      LiveInvitesStay(front, invite, now);
      assert o in ops && op in ops;
      StillThere(After(front), op, invite, now);
    }
  }

  lemma StillThere(entries: seq<Invite>, op: Op, invite: Invite, now: int)
    requires invite in entries && IsLive(invite, now)
    requires TimeOf(op).Some? ==> TimeOf(op).value <= now
    requires !(Takes(entries, op) && op.secret == invite.secret)
    ensures invite in Step(entries, op)
  {
    var k :| 0 <= k < |entries| && entries[k] == invite;
    if op.Create? {
      assert (entries + [op.invite])[k] == invite;
    } else if Takes(entries, op) {
      var i := Match(entries, op.secret, op.name, op.now).value;
      assert entries[i].secret == op.secret;
      assert Used(entries, i, op.now)[k] == invite;
    }
  }

  /**
   * Several handles, any order of whole operations, any failures of the disk: presenting a
   * secret under a name works exactly when an invite was issued with that secret for that name,
   * its time is not over and it was never redeemed.
   */
  lemma AnInviteWorksOnceInTimeForItsName(ops: seq<Op>, secret: Secret, name: string, now: int)
    requires Legal(ops, now)
    ensures Match(After(ops), secret, Some(name), now).Ok? <==>
            && Redemptions(ops, secret) == 0
            && exists invite ::
              Issued(ops, invite) && invite.secret == secret && invite.deviceName == name && now < invite.expiresAt
  {
    hide After, Issues, Redemptions, Issued;
    var entries := After(ops);
    EntriesAreTraced(ops, now);
    RedemptionsAreIssued(ops, secret);
    assert Issues(ops, secret) <= 1;
    var found := Match(entries, secret, Some(name), now);
    if found.Ok? {
      var i := entries[found.value];
      assert i in entries && Original(i) == i;
      UnusedMember(entries, found.value);
    }
    forall invite | Redemptions(ops, secret) == 0 && Issued(ops, invite) && invite.secret == secret
        && invite.deviceName == name && now < invite.expiresAt
      ensures found.Ok?
    {
      LiveInvitesStay(ops, invite, now);
      var k :| 0 <= k < |entries| && entries[k] == invite;
      var j := Find(entries, secret).value;
      assert entries[j] in entries;
      OneIssueEach(ops, Original(entries[j]), invite);
    }
  }

  lemma UnusedMember(entries: seq<Invite>, k: nat)
    requires k < |entries| && entries[k].usedAt.None?
    ensures Unused(entries, entries[k].secret) > 0
  {
    var secret := entries[k].secret;
    assert entries == entries[..k] + [entries[k]] + entries[k + 1..];
    UnusedParts(entries[..k] + [entries[k]], entries[k + 1..], secret);
    UnusedParts(entries[..k], [entries[k]], secret);
    UnusedOne(entries[k], secret);
  }

  /** Each invite is redeemed at most once ever. */
  lemma RedeemedAtMostOnce(ops: seq<Op>, secret: Secret, now: int)
    requires Legal(ops, now)
    ensures Redemptions(ops, secret) <= 1
  {
    RedemptionsAreIssued(ops, secret);
    assert Issues(ops, secret) <= 1;
  }

  /** An attempt under another name changes nothing, and the right name still works after it. */
  lemma AnotherNameChangesNothing(ops: seq<Op>, secret: Secret, name: string, other: string, now: int, disk: Disk)
    requires Legal(ops, now) && name != other
    requires Match(After(ops), secret, Some(name), now).Ok?
    ensures var attempt := Op.Take(secret, Some(other), now, disk);
            && After(ops + [attempt]) == After(ops)
            && Match(After(ops + [attempt]), secret, Some(name), now).Ok?
            && Match(After(ops), secret, Some(other), now) == Err(AnotherName(name))
  {
    var attempt := Op.Take(secret, Some(other), now, disk);
    assert (ops + [attempt])[..|ops|] == ops;
  }
}
