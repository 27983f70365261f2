/** What a reconciliation does to the machine's own volume claim templates. */
module MachineTemplates {
  import opened Common
  import opened Pods
  import opened Machine
  import PodBuilder

  /** Template by template: `n` of them are reached. */
  lemma {:induction false} WrittenAt(ts: seq<Template>, n: nat, ref: OwnerRef)
    requires n <= |ts| && forall j :: 0 <= j < n ==> !OwnedElsewhere(ts[j].owners, ref)
    requires n < |ts| ==> OwnedElsewhere(ts[n].owners, ref)
    ensures |Written(ts, ref)| == |ts|
    ensures forall j :: 0 <= j < |ts| ==>
              Written(ts, ref)[j] == if j < n then ts[j].(owners := Shown(ts[j].owners, ref)) else ts[j]
  {
    hide OwnedElsewhere, Shown;
    if n > 0 {
      assert forall j :: 0 < j < |ts| ==> ts[1..][j - 1] == ts[j];
      WrittenAt(ts[1..], n - 1, ref);
      forall j | 0 <= j < |ts|
        ensures |Written(ts, ref)| == |ts|
        ensures Written(ts, ref)[j] == if j < n then ts[j].(owners := Shown(ts[j].owners, ref)) else ts[j]
      {
        if j > 0 {
          assert Written(ts, ref)[j] == Written(ts[1..], ref)[j - 1];
        }
      }
    }
  }

  /** The template lists the machine, last, otherwise than the controller reference would. */
  predicate ListsOtherwise(owners: seq<OwnerRef>, ref: OwnerRef) {
    LastSame(owners, ref) >= 0 && owners[LastSame(owners, ref)] != ref
  }

  /** No template up to this one has another controller. */
  predicate Reached(ts: seq<Template>, i: nat, ref: OwnerRef) {
    i < |ts| && forall j :: 0 <= j <= i ==> !OwnedElsewhere(ts[j].owners, ref)
  }

  lemma CountReached(ts: seq<Template>, ref: OwnerRef) returns (n: nat)
    ensures n <= |ts| && (n < |ts| ==> OwnedElsewhere(ts[n].owners, ref))
    ensures forall j :: 0 <= j < n ==> !OwnedElsewhere(ts[j].owners, ref)
    ensures forall i: nat :: i < |ts| ==> (Reached(ts, i, ref) <==> i < n)
  {
    hide OwnedElsewhere;
    n := 0;
    while n < |ts| && !OwnedElsewhere(ts[n].owners, ref)
      invariant n <= |ts| && forall j :: 0 <= j < n ==> !OwnedElsewhere(ts[j].owners, ref)
    {
      n := n + 1;
    }
  }

  /** Making the claims changes the machine's own templates exactly when one of those reached lists the
      machine already but not as its controller, by its UID and blocking deletion. */
  lemma TemplatesWrittenIff(ts: seq<Template>, ref: OwnerRef)
    ensures Written(ts, ref) != ts <==> exists i: nat :: Reached(ts, i, ref) && ListsOtherwise(ts[i].owners, ref)
  {
    var n := CountReached(ts, ref);
    WrittenAt(ts, n, ref);
    var us := Written(ts, ref);
    hide OwnedElsewhere, Reached, Written;
    forall i: nat | i < |ts| ensures us[i] != ts[i] <==> Reached(ts, i, ref) && ListsOtherwise(ts[i].owners, ref) {
      var owners := ts[i].owners;
      if i < n && LastSame(owners, ref) >= 0 {
        assert us[i].owners[LastSame(owners, ref)] == ref;
      }
    }
    if us != ts {
      var i :| 0 <= i < |ts| && us[i] != ts[i];
    }
    ReachedInRange(ts, ref);
  }

  lemma ReachedInRange(ts: seq<Template>, ref: OwnerRef)
    ensures forall i: nat :: Reached(ts, i, ref) ==> i < |ts|
  {}

  /** For instance a template that names the machine as an owner but not as its controller. */
  lemma PlainOwnerIsOverwritten(t: Template, cfg: Config)
    requires t.owners == [SelfRef(cfg).(controller := None)]
    ensures Written([t], SelfRef(cfg)) == [t.(owners := [SelfRef(cfg)])] != [t]
  {
    var ref := SelfRef(cfg);
    assert t.owners[0].target == ref.target;
    assert LastSame(t.owners, ref) == 0;
    assert t.owners[0 := ref] == [ref];
    assert [t][1..] == [];
    assert [ref][0] != t.owners[0];
  }

  // ---- The change makes no difference to any later reconciliation

  lemma ShownIsSettled(owners: seq<OwnerRef>, ref: OwnerRef)
    ensures Upsert(Shown(owners, ref), ref) == Upsert(owners, ref)
    ensures Shown(Shown(owners, ref), ref) == Shown(owners, ref)
    ensures OwnedElsewhere(Shown(owners, ref), ref) <==> OwnedElsewhere(owners, ref)
  {
    var k, shown := LastSame(owners, ref), Shown(owners, ref);
    if k >= 0 {
      assert shown == owners[k := ref];
      assert shown[k].target == ref.target;
      assert forall i :: k < i < |owners| ==> shown[i].target == owners[i].target;
      assert LastSame(shown, ref) == k;
      if OwnedElsewhere(owners, ref) {
        var r :| r in owners && r.target != ref.target && r.controller == Some(true);
        var i :| 0 <= i < |owners| && owners[i] == r;
        assert shown[i] == r;
      }
    }
  }

  /** The machine with its templates as a reconciliation leaves them. */
  function Rewritten(cfg: Config): Config {
    cfg.(templates := Written(cfg.templates, SelfRef(cfg)))
  }

  lemma RewrittenSettles(cfg: Config)
    ensures Claimable(Rewritten(cfg)) <==> Claimable(cfg)
    ensures Rewritten(Rewritten(cfg)) == Rewritten(cfg)
    ensures Claimable(cfg) ==> ClaimsOf(Rewritten(cfg).templates, Rewritten(cfg)) == ClaimsOf(cfg.templates, cfg)
  {
    var ts, us, ref := cfg.templates, Rewritten(cfg).templates, SelfRef(cfg);
    assert SelfRef(Rewritten(cfg)) == ref;
    var n := CountReached(ts, ref);
    WrittenAt(ts, n, ref);
    forall i | 0 <= i < |ts|
      ensures OwnedElsewhere(us[i].owners, ref) <==> OwnedElsewhere(ts[i].owners, ref)
      ensures i < n ==> us[i].(owners := Shown(us[i].owners, ref)) == us[i]
      ensures i < n ==> ClaimFor(us[i], Rewritten(cfg)) == ClaimFor(ts[i], cfg)
      ensures us[i].name == ts[i].name
    {
      ShownIsSettled(ts[i].owners, ref);
    }
    hide OwnedElsewhere, Shown, Upsert, Written, SelfRef, ClaimFor, Reached;
    WrittenAt(us, n, ref);
    assert Written(us, ref) == us;
    assert Claimable(cfg) <==> n == |ts| by {
      assert forall i :: 0 <= i < |ts| ==> ts[i] in ts;
    }
    assert Claimable(Rewritten(cfg)) <==> n == |us| by {
      assert forall i :: 0 <= i < |us| ==> us[i] in us;
    }
    if n == |ts| {
      ClaimsSame(ts, cfg, us, Rewritten(cfg));
    }
  }

  lemma {:induction false} ClaimsSame(ts: seq<Template>, cfg: Config, us: seq<Template>, cfg': Config)
    requires |ts| == |us|
    requires forall i :: 0 <= i < |ts| ==> ts[i].name == us[i].name && ClaimFor(us[i], cfg') == ClaimFor(ts[i], cfg)
    ensures ClaimsOf(us, cfg') == ClaimsOf(ts, cfg)
  {
    hide ClaimFor;
    if ts != [] {
      ClaimsSame(ts[..|ts| - 1], cfg, us[..|us| - 1], cfg');
    }
  }

  lemma ProvisionSame(cfg: Config, m: Record, st: Store, pod: Pod, x: Inputs)
    ensures Provision(Rewritten(cfg), m, st, pod, x) == Provision(cfg, m, st, pod, x)
  {
    RewrittenSettles(cfg);
    hide Claimable, ClaimsOf, CreateClaims, GetContainerStatus, IsPodReady, Written, SelfRef;
  }

  lemma CreateSame(cfg: Config, cl: Cluster, om: OwnerMachine, m: Record, st: Store, x: Inputs)
    ensures CreatePod(Rewritten(cfg), cl, om, m, st, x) == CreatePod(cfg, cl, om, m, st, x)
  {
    RewrittenSettles(cfg);
    hide Claimable, PodBuilder.MachineSpec, PodBuilder.StandardLayout, Written, SelfRef;
  }

  /** Once written the templates stay as they are, and whether the written ones are persisted or not,
      every later reconciliation does the same. */
  lemma TemplatesDoNotMatter(cfg: Config, w: World, x: Inputs, p: Patch)
    ensures Rewritten(Rewritten(cfg)) == Rewritten(cfg)
    ensures Reconcile(Rewritten(cfg), w, x, p) == Reconcile(cfg, w, x, p)
  {
    RewrittenSettles(cfg);
    BodySame(cfg, w.record, w.store, x);
    hide ReconcileBody, Written, SelfRef;
  }

  lemma BodySame(cfg: Config, m: Record, st: Store, x: Inputs)
    ensures ReconcileBody(Rewritten(cfg), m, st, x) == ReconcileBody(cfg, m, st, x)
  {
    hide Provision, CreatePod, Written, SelfRef;
    if x.owner.Found? && x.cluster.Found? && !m.deleting {
      var m1 := ReconcileVersion(m, x.owner.value);
      var m2 := m1.(finalizers := m1.finalizers + {FINALIZER, FOREGROUND});
      CreateSame(cfg, x.cluster.value, x.owner.value, m2, st, x);
      CreateSame(cfg, x.cluster.value, x.owner.value, m2.(ready := false), st, x);
      if cfg.name in st.pods {
        ProvisionSame(cfg, m2, st, st.pods[cfg.name], x);
      }
    }
  }
}
