/**
 * Term reconciliation: a source category becomes a `store_product_cat` term, matched by
 * name, with its parent chain reconciled first.
 */
module Taxonomy {
  import opened Wrappers
  import opened Php
  import opened Wp
  import opened Source

  /** `t` starts with `s`: terms are only ever added. */
  predicate Grows(s: seq<TargetTerm>, t: seq<TargetTerm>) {
    |s| <= |t| && t[..|s|] == s
  }

  lemma GrowsTransitive(s: seq<TargetTerm>, t: seq<TargetTerm>, u: seq<TargetTerm>)
    requires Grows(s, t) && Grows(t, u)
    ensures Grows(s, u)
  {
    assert u[..|s|] == u[..|t|][..|s|];
  }

  /** `ensure_target_term`: the target term id for source term `id` and the terms after the
      call. A term whose name already exists maps to that term. Otherwise its parent is
      reconciled first, and the term is inserted with its slug and, when the parent resolved,
      that parent. A missing source term or a refused insert gives 0. */
  function EnsureTerm(env: Env, src: map<int, SourceTerm>, ghost rank: map<int, nat>,
                      tgt: seq<TargetTerm>, id: int): (r: (seq<TargetTerm>, nat))
    requires Ranked(src, rank)
    ensures Grows(tgt, r.0)
    ensures r.1 <= |r.0|
    ensures r.1 != 0 ==> id in src && r.0[r.1 - 1].name == src[id].name
    decreases if id in src && id in rank then rank[id] + 1 else 0
  {
    if id !in src then (tgt, 0)
    else
      assert RankedAt(src, rank, id);
      var t := src[id];
      var existing := TermIndex(tgt, t.name);
      if existing != 0 then (tgt, existing)
      else
        var (tgt1, parentId) :=
          if FollowsParent(src, t) then EnsureTerm(env, src, rank, tgt, t.parent) else (tgt, 0);
        var r := AfterInsertTerm(env, tgt1, t.name, t.slug, if parentId > 0 then parentId else 0);
        GrowsTransitive(tgt, tgt1, r.0);
        r
  }

  /** The loop of `migrate_product_taxonomies`: each term reconciled in turn, the non-zero
      ids collected in order. */
  function Reconcile(env: Env, src: map<int, SourceTerm>, ghost rank: map<int, nat>,
                     tgt: seq<TargetTerm>, ids: seq<int>): (r: (seq<TargetTerm>, seq<int>))
    requires Ranked(src, rank)
    ensures Grows(tgt, r.0)
    ensures |r.1| <= |ids|
    ensures forall k :: 0 <= k < |r.1| ==> 0 < r.1[k] <= |r.0|
    decreases |ids|
  {
    if ids == [] then (tgt, [])
    else
      var (tgt1, acc) := Reconcile(env, src, rank, tgt, ids[..|ids| - 1]);
      var (tgt2, x) := EnsureTerm(env, src, rank, tgt1, ids[|ids| - 1]);
      GrowsTransitive(tgt, tgt1, tgt2);
      (tgt2, acc + (if x != 0 then [x] else []))
  }

  // ---------------------------------------------------------------------------
  // Properties

  /** A missing source term reconciles to 0 and creates nothing. */
  lemma MissingTerm(env: Env, src: map<int, SourceTerm>, rank: map<int, nat>, tgt: seq<TargetTerm>, id: int)
    requires Ranked(src, rank) && id !in src
    ensures EnsureTerm(env, src, rank, tgt, id) == (tgt, 0)
  {
  }

  /** A source term whose name is already a target term reconciles to that term and
      creates nothing. */
  lemma ExistingName(env: Env, src: map<int, SourceTerm>, rank: map<int, nat>, tgt: seq<TargetTerm>, id: int)
    requires Ranked(src, rank) && id in src
    requires exists j :: 0 <= j < |tgt| && tgt[j].name == src[id].name
    ensures EnsureTerm(env, src, rank, tgt, id) == (tgt, TermIndex(tgt, src[id].name))
    ensures TermIndex(tgt, src[id].name) != 0
  {
  }

  /** A new term whose parent is not followed is inserted at the top level. This is always
      the case for a WooCommerce `product_cat` term whose parent is also a `product_cat`
      term: the parent lookup asks for a `category-product` term, so the WooCommerce
      hierarchy is flattened. */
  lemma ParentNotFollowed(env: Env, src: map<int, SourceTerm>, rank: map<int, nat>, tgt: seq<TargetTerm>, id: int)
    requires Ranked(src, rank) && id in src
    requires TermIndex(tgt, src[id].name) == 0
    requires !FollowsParent(src, src[id])
    ensures EnsureTerm(env, src, rank, tgt, id) == AfterInsertTerm(env, tgt, src[id].name, src[id].slug, 0)
  {
  }

  /** When the term's parent is followed and resolves, the child is created under it, after
      the parent's own reconciliation. */
  lemma ParentFollowed(env: Env, src: map<int, SourceTerm>, rank: map<int, nat>, tgt: seq<TargetTerm>, id: int)
    requires Ranked(src, rank) && id in src
    requires TermIndex(tgt, src[id].name) == 0
    requires FollowsParent(src, src[id])
    ensures var (tgt1, parentId) := EnsureTerm(env, src, rank, tgt, src[id].parent);
      EnsureTerm(env, src, rank, tgt, id) == AfterInsertTerm(env, tgt1, src[id].name, src[id].slug, parentId)
  {
  }

  /** Once a term is found, it keeps being found, under the same id, as terms are added. */
  lemma TermIndexStable(s: seq<TargetTerm>, t: seq<TargetTerm>, name: string)
    requires Grows(s, t) && TermIndex(s, name) != 0
    ensures TermIndex(t, name) == TermIndex(s, name)
  {
    var r := TermIndex(s, name);
    assert forall j :: 0 <= j < |s| ==> t[j] == t[..|s|][j];
    assert t[r - 1] == s[r - 1];
  }

  /** Reconciling a term that reconciled to a non-zero id settles: any later call, on any
      extension of the terms, creates nothing and returns the first term with that name. */
  lemma EnsureTermSettles(env: Env, src: map<int, SourceTerm>, rank: map<int, nat>,
                          tgt: seq<TargetTerm>, id: int, later: seq<TargetTerm>)
    requires Ranked(src, rank)
    requires EnsureTerm(env, src, rank, tgt, id).1 != 0
    requires Grows(EnsureTerm(env, src, rank, tgt, id).0, later)
    ensures id in src
    ensures TermIndex(EnsureTerm(env, src, rank, tgt, id).0, src[id].name) != 0
    ensures EnsureTerm(env, src, rank, later, id) ==
      (later, TermIndex(EnsureTerm(env, src, rank, tgt, id).0, src[id].name))
  {
    var (tgt', x) := EnsureTerm(env, src, rank, tgt, id);
    var name := src[id].name;
    assert tgt'[x - 1].name == name;
    TermIndexStable(tgt', later, name);
  }

  /** Every term's parent is 0 or an earlier term: the target taxonomy is a forest. */
  predicate WellParented(terms: seq<TargetTerm>) {
    forall j :: 0 <= j < |terms| ==> 0 <= terms[j].parent <= j
  }

  /** Reconciliation keeps the target taxonomy a forest: a parent is always created before
      its child. */
  lemma {:induction false} EnsureTermWellParented(env: Env, src: map<int, SourceTerm>, rank: map<int, nat>,
                                                  tgt: seq<TargetTerm>, id: int)
    requires Ranked(src, rank) && WellParented(tgt)
    ensures WellParented(EnsureTerm(env, src, rank, tgt, id).0)
    decreases if id in src && id in rank then rank[id] + 1 else 0
  {
    if id in src && TermIndex(tgt, src[id].name) == 0 {
      assert RankedAt(src, rank, id);
      var t := src[id];
      var (tgt1, parentId) :=
        if FollowsParent(src, t) then EnsureTerm(env, src, rank, tgt, t.parent) else (tgt, 0);
      if FollowsParent(src, t) {
        EnsureTermWellParented(env, src, rank, tgt, t.parent);
      }
      var r := AfterInsertTerm(env, tgt1, t.name, t.slug, parentId);
      assert EnsureTerm(env, src, rank, tgt, id) == r;
      if r.1 != 0 {
        assert forall j :: 0 <= j < |tgt1| ==> r.0[j] == tgt1[j];
      }
    }
  }

  /** Reconciling a product's terms keeps the target taxonomy a forest. */
  lemma {:induction false} ReconcileWellParented(env: Env, src: map<int, SourceTerm>, rank: map<int, nat>,
                                                 tgt: seq<TargetTerm>, ids: seq<int>)
    requires Ranked(src, rank) && WellParented(tgt)
    ensures WellParented(Reconcile(env, src, rank, tgt, ids).0)
    decreases |ids|
  {
    if ids != [] {
      ReconcileWellParented(env, src, rank, tgt, ids[..|ids| - 1]);
      var tgt1 := Reconcile(env, src, rank, tgt, ids[..|ids| - 1]).0;
      EnsureTermWellParented(env, src, rank, tgt1, ids[|ids| - 1]);
    }
  }

  /** Term `t` of `terms` carries the name of one of the source terms `ids`. */
  predicate NamedAfter(src: map<int, SourceTerm>, ids: seq<int>, terms: seq<TargetTerm>, t: int) {
    0 < t <= |terms| && exists i :: 0 <= i < |ids| && ids[i] in src && terms[t - 1].name == src[ids[i]].name
  }

  /** One more reconciled term: the ids collected before keep naming source terms, and the
      new id, when there is one, names the new source term. */
  lemma NamedAfterSnoc(src: map<int, SourceTerm>, init: seq<int>, last: int,
                       terms1: seq<TargetTerm>, terms2: seq<TargetTerm>, acc: seq<int>, x: nat, k: nat)
    requires Grows(terms1, terms2)
    requires k < |acc| ==> NamedAfter(src, init, terms1, acc[k])
    requires x != 0 ==> last in src && x <= |terms2| && terms2[x - 1].name == src[last].name
    requires k < |acc| + (if x != 0 then 1 else 0)
    ensures NamedAfter(src, init + [last], terms2, (acc + (if x != 0 then [x] else []))[k])
  {
    var ids := init + [last];
    var got := acc + (if x != 0 then [x] else []);
    if k < |acc| {
      var t := acc[k];
      var i :| 0 <= i < |init| && init[i] in src && terms1[t - 1].name == src[init[i]].name;
      assert terms2[t - 1] == terms1[t - 1] by {
        assert terms2[..|terms1|][t - 1] == terms1[t - 1];
      }
      assert ids[i] == init[i];
      assert got[k] == t;
    } else {
      assert got[k] == x;
      assert ids[|init|] == last;
    }
  }

  /** Every id a reconciliation collects names a target term carrying the name of one of
      the product's source terms. */
  lemma {:induction false} ReconcileNames(env: Env, src: map<int, SourceTerm>, rank: map<int, nat>,
                                          tgt: seq<TargetTerm>, ids: seq<int>, k: nat)
    requires Ranked(src, rank)
    requires k < |Reconcile(env, src, rank, tgt, ids).1|
    ensures var r := Reconcile(env, src, rank, tgt, ids);
      NamedAfter(src, ids, r.0, r.1[k])
    decreases |ids|
  {
    var init, last := ids[..|ids| - 1], ids[|ids| - 1];
    var r1 := Reconcile(env, src, rank, tgt, init);
    var r2 := EnsureTerm(env, src, rank, r1.0, last);
    if k < |r1.1| {
      ReconcileNames(env, src, rank, tgt, init, k);
    }
    NamedAfterSnoc(src, init, last, r1.0, r2.0, r1.1, r2.1, k);
    assert init + [last] == ids;
  }
}
