/** The local account pool behind the command handlers: slots in order of capture, an
    enabled flag each, and the one the runner is live on. */
module Pools {
  import opened Collections

  datatype Slot = Slot(email: string, enabled: bool)

  /** `active` is empty when nothing is live. */
  datatype Pool = Pool(slots: seq<Slot>, active: string)

  predicate Has(p: Pool, email: string) {
    exists i :: 0 <= i < |p.slots| && p.slots[i].email == email
  }

  /** One slot an email, none without one, and the live account is in the pool. */
  ghost predicate Valid(p: Pool) {
    && (forall i, j :: 0 <= i < j < |p.slots| ==> p.slots[i].email != p.slots[j].email)
    && (forall i :: 0 <= i < |p.slots| ==> p.slots[i].email != "")
    && (p.active == "" || Has(p, p.active))
  }

  predicate Flagged(p: Pool, email: string, enabled: bool) {
    Slot(email, enabled) in p.slots
  }

  // ------------------------------------------------------------ the verbs

  function WithFlag(slots: seq<Slot>, email: string, enabled: bool): (r: seq<Slot>)
    ensures |r| == |slots|
    ensures forall i :: 0 <= i < |slots| ==> r[i] == if slots[i].email == email then Slot(email, enabled) else slots[i]
  {
    Map(slots, (s: Slot) => if s.email == email then Slot(email, enabled) else s)
  }

  /** Capturing an account makes it the live one. */
  function Added(p: Pool, email: string, enabled: bool): Pool {
    Pool(if Has(p, email) then WithFlag(p.slots, email, enabled) else p.slots + [Slot(email, enabled)], email)
  }

  predicate Differs(s: Slot, email: string) { s.email != email }

  function Removed(p: Pool, email: string): Pool {
    if !Has(p, email) then p
    else Pool(Filter(p.slots, s => Differs(s, email)), if p.active == email then "" else p.active)
  }

  function Toggled(p: Pool, email: string, enabled: bool): Pool {
    p.(slots := WithFlag(p.slots, email, enabled))
  }

  // ------------------------------------------------------------ what they keep

  lemma {:induction false} AddedKeeps(p: Pool, email: string, enabled: bool)
    requires Valid(p) && email != ""
    ensures Valid(Added(p, email, enabled)) && Flagged(Added(p, email, enabled), email, enabled)
    ensures forall x, on :: x != email ==> (Flagged(Added(p, email, enabled), x, on) <==> Flagged(p, x, on))
    ensures forall x :: Has(Added(p, email, enabled), x) <==> Has(p, x) || x == email
  {
    var after := Added(p, email, enabled);
    if Has(p, email) {
      var i :| 0 <= i < |p.slots| && p.slots[i].email == email;
      assert after.slots[i] == Slot(email, enabled);
    } else {
      assert after.slots[|p.slots|] == Slot(email, enabled);
    }
    forall x, on | x != email ensures Flagged(after, x, on) <==> Flagged(p, x, on) {
      SameElsewhere(p.slots, after.slots, email, x, on);
    }
    forall x ensures Has(after, x) <==> Has(p, x) || x == email {
      if Has(p, x) {
        var i :| 0 <= i < |p.slots| && p.slots[i].email == x;
        assert after.slots[i].email == x;
      }
    }
  }

  lemma {:induction false} SameElsewhere(slots: seq<Slot>, after: seq<Slot>, email: string, x: string, on: bool)
    requires x != email && |after| >= |slots|
    requires forall i :: 0 <= i < |slots| ==> after[i].email == slots[i].email && (slots[i].email != email ==> after[i] == slots[i])
    requires forall i :: |slots| <= i < |after| ==> after[i].email == email
    ensures Slot(x, on) in after <==> Slot(x, on) in slots
  {
    if Slot(x, on) in slots {
      var i :| 0 <= i < |slots| && slots[i] == Slot(x, on);
      assert after[i] == slots[i];
    }
  }

  lemma {:induction false} FilterValid(slots: seq<Slot>, email: string)
    requires forall i, j :: 0 <= i < j < |slots| ==> slots[i].email != slots[j].email
    ensures var left := Filter(slots, s => Differs(s, email));
            && (forall i, j :: 0 <= i < j < |left| ==> left[i].email != left[j].email)
            && (forall s :: s in left <==> s in slots && s.email != email)
  {
    FilterMembers(slots, s => Differs(s, email));
    if slots != [] {
      var n := |slots| - 1;
      FilterValid(slots[..n], email);
      var front := Filter(slots[..n], s => Differs(s, email));
      forall i | 0 <= i < |front| ensures front[i].email != slots[n].email {
        assert front[i] in slots[..n];
      }
    }
  }

  lemma {:induction false} RemovedKeeps(p: Pool, email: string)
    requires Valid(p)
    ensures Valid(Removed(p, email)) && !Has(Removed(p, email), email)
    ensures forall x, on :: x != email ==> (Flagged(Removed(p, email), x, on) <==> Flagged(p, x, on))
    ensures Removed(p, email).active == if p.active == email then "" else p.active
  {
    if Has(p, email) {
      FilterValid(p.slots, email);
      var after := Removed(p, email);
      forall i | 0 <= i < |after.slots| ensures after.slots[i].email != "" && after.slots[i].email != email {
        assert after.slots[i] in after.slots;
      }
      if p.active != email && p.active != "" {
        var i :| 0 <= i < |p.slots| && p.slots[i].email == p.active;
        assert p.slots[i] in after.slots;
      }
    }
  }

  lemma {:induction false} ToggledKeeps(p: Pool, email: string, enabled: bool)
    requires Valid(p)
    ensures Valid(Toggled(p, email, enabled)) && Toggled(p, email, enabled).active == p.active
    ensures Has(p, email) ==> Flagged(Toggled(p, email, enabled), email, enabled)
    ensures forall x, on :: x != email ==> (Flagged(Toggled(p, email, enabled), x, on) <==> Flagged(p, x, on))
  {
    var after := Toggled(p, email, enabled);
    if Has(p, email) {
      var i :| 0 <= i < |p.slots| && p.slots[i].email == email;
      assert after.slots[i] == Slot(email, enabled);
    }
    if p.active != "" {
      var i :| 0 <= i < |p.slots| && p.slots[i].email == p.active;
      assert after.slots[i].email == p.active;
    }
    forall x, on | x != email ensures Flagged(after, x, on) <==> Flagged(p, x, on) {
      SameElsewhere(p.slots, after.slots, email, x, on);
    }
  }

  // ------------------------------------------------------------ where to move the runner

  predicate IsOther(s: Slot, exclude: string) { s.email != "" && s.email != exclude }

  /** The first enabled account other than `exclude`, else the first other one, else
      nothing. */
  ghost predicate BestTarget(p: Pool, exclude: string, target: string) {
    if target == "" then forall i :: 0 <= i < |p.slots| ==> !IsOther(p.slots[i], exclude)
    else exists i :: 0 <= i < |p.slots| && p.slots[i].email == target && IsOther(p.slots[i], exclude)
           && (if p.slots[i].enabled then forall j :: 0 <= j < i ==> !(IsOther(p.slots[j], exclude) && p.slots[j].enabled)
               else (forall j :: 0 <= j < |p.slots| && IsOther(p.slots[j], exclude) ==> !p.slots[j].enabled)
                    && forall j :: 0 <= j < i ==> !IsOther(p.slots[j], exclude))
  }

  /** The target as the loop finds it, from slot `i` on with a fallback in hand. */
  function TargetFrom(slots: seq<Slot>, exclude: string, i: nat, fallback: string): string
    decreases |slots| - i
  {
    if i >= |slots| then fallback
    else if !IsOther(slots[i], exclude) then TargetFrom(slots, exclude, i + 1, fallback)
    else if slots[i].enabled then slots[i].email
    else TargetFrom(slots, exclude, i + 1, if fallback == "" then slots[i].email else fallback)
  }

  function OtherTarget(p: Pool, exclude: string): string {
    TargetFrom(p.slots, exclude, 0, "")
  }

  /** What the loop knows when it reaches slot `i`. */
  ghost predicate FallbackIs(slots: seq<Slot>, exclude: string, i: nat, fallback: string) {
    && i <= |slots|
    && (forall j :: 0 <= j < i && IsOther(slots[j], exclude) ==> !slots[j].enabled)
    && if fallback == "" then forall j :: 0 <= j < i ==> !IsOther(slots[j], exclude)
       else exists k :: 0 <= k < i && slots[k].email == fallback && IsOther(slots[k], exclude)
                        && forall j :: 0 <= j < k ==> !IsOther(slots[j], exclude)
  }

  lemma {:induction false} TargetFromBest(p: Pool, exclude: string, i: nat, fallback: string)
    requires FallbackIs(p.slots, exclude, i, fallback)
    ensures BestTarget(p, exclude, TargetFrom(p.slots, exclude, i, fallback))
    decreases |p.slots| - i
  {
    if i < |p.slots| {
      var s := p.slots[i];
      if !IsOther(s, exclude) {
        TargetFromBest(p, exclude, i + 1, fallback);
      } else if !s.enabled {
        TargetFromBest(p, exclude, i + 1, if fallback == "" then s.email else fallback);
      }
    }
  }

  /** The runner is moved onto the best remaining account. */
  lemma {:induction false} OtherTargetBest(p: Pool, exclude: string)
    ensures BestTarget(p, exclude, OtherTarget(p, exclude))
    ensures OtherTarget(p, exclude) != "" ==> Has(p, OtherTarget(p, exclude)) && OtherTarget(p, exclude) != exclude
  {
    TargetFromBest(p, exclude, 0, "");
  }

  // ------------------------------------------------------------ the object

  class Bridge {
    var slots: seq<Slot>
    var active: string

    function Value(): Pool
      reads this
    {
      Pool(slots, active)
    }

    constructor ()
      ensures Value() == Pool([], "")
    {
      slots, active := [], "";
    }

    method IndexOf(email: string) returns (i: nat)
      ensures i <= |slots| && (i < |slots| ==> slots[i].email == email)
      ensures forall j :: 0 <= j < i ==> slots[j].email != email
      ensures i < |slots| <==> Has(Value(), email)
    {
      i := 0;
      while i < |slots| && slots[i].email != email
        invariant i <= |slots| && forall j :: 0 <= j < i ==> slots[j].email != email
      {
        i := i + 1;
      }
    }

    method Add(email: string, enabled: bool)
      requires Valid(Value())
      modifies this
      ensures Value() == Added(old(Value()), email, enabled)
    {
      var i := IndexOf(email);
      if i == |slots| {
        slots := slots + [Slot(email, enabled)];
      } else {
        assert slots[i := Slot(email, enabled)] == WithFlag(slots, email, enabled);
        slots := slots[i := Slot(email, enabled)];
      }
      active := email;
    }

    method Remove(email: string)
      requires Valid(Value())
      modifies this
      ensures Value() == Removed(old(Value()), email)
    {
      var i := IndexOf(email);
      if i == |slots| {
        return;
      }
      CutIsFilter(slots, email, i);
      slots := slots[..i] + slots[i + 1..];
      if active == email {
        active := "";
      }
    }

    method SetEnabled(email: string, enabled: bool)
      requires Valid(Value())
      modifies this
      ensures Value() == Toggled(old(Value()), email, enabled)
    {
      var i := IndexOf(email);
      if i < |slots| {
        assert slots[i := Slot(email, enabled)] == WithFlag(slots, email, enabled);
        slots := slots[i := Slot(email, enabled)];
      } else {
        assert WithFlag(slots, email, enabled) == slots;
      }
    }

    method Switch(target: string) returns (ok: bool)
      modifies this
      ensures ok <==> Has(old(Value()), target)
      ensures Value() == if ok then old(Value()).(active := target) else old(Value())
    {
      var i := IndexOf(target);
      if i == |slots| {
        return false;
      }
      active := target;
      return true;
    }

    method OtherSwitchTarget(exclude: string) returns (target: string)
      ensures target == OtherTarget(Value(), exclude) && BestTarget(Value(), exclude, target)
    {
      OtherTargetBest(Value(), exclude);
      var fallback := "";
      for i := 0 to |slots|
        invariant TargetFrom(slots, exclude, i, fallback) == OtherTarget(Value(), exclude)
      {
        if slots[i].email == "" || slots[i].email == exclude {
          continue;
        }
        if slots[i].enabled {
          return slots[i].email;
        }
        if fallback == "" {
          fallback := slots[i].email;
        }
      }
      return fallback;
    }
  }

  lemma {:induction false} CutIsFilter(slots: seq<Slot>, email: string, i: nat)
    requires forall k, j :: 0 <= k < j < |slots| ==> slots[k].email != slots[j].email
    requires i < |slots| && slots[i].email == email
    ensures Filter(slots, s => Differs(s, email)) == slots[..i] + slots[i + 1..]
  {
    var n := |slots| - 1;
    if i < n {
      CutIsFilter(slots[..n], email, i);
      assert slots[..n][..i] + slots[..n][i + 1..] + [slots[n]] == slots[..i] + slots[i + 1..];
    } else {
      FilterAll(slots[..n], s => Differs(s, email));
      assert slots[..i] + slots[i + 1..] == slots[..n];
    }
  }
}
