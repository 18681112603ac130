/**
 * The cross-linkers only ever append to a list of a group (`add_creatable`,
 * `add_researchable`, `add_trading_line`, the garrison lists), insert into
 * its accepted-resource set, or append to a list of a civ group. A linker is
 * modelled as the sequence of links it makes, `(target, item)`, applied in
 * order; this module applies them and says what every target ends up with.
 */
module Links {
  import opened Wrappers
  import opened Dicts
  import opened Groups
  import opened Registry

  /** The items `links` attaches to `a`, in link order. */
  function Targets<K(==), T>(links: seq<(K, T)>, a: K): seq<T>
    decreases |links|
  {
    if |links| == 0 then []
    else (if links[0].0 == a then [links[0].1] else []) + Targets(links[1..], a)
  }

  /** An item is among the targets of `a` exactly when some link carries it to `a`. */
  lemma {:induction false} TargetsIff<K, T>(links: seq<(K, T)>, a: K, x: T)
    ensures x in Targets(links, a) <==> exists i :: 0 <= i < |links| && links[i] == (a, x)
    decreases |links|
  {
    if |links| > 0 {
      TargetsIff(links[1..], a, x);
      assert forall i :: 0 < i < |links| ==> links[i] == links[1..][i - 1];
    }
  }

  /** `v` after `add` has been applied with each of `xs`, in order. */
  function FoldAdd<V, T>(v: V, xs: seq<T>, add: (V, T) -> V): V
    decreases |xs|
  {
    if |xs| == 0 then v else FoldAdd(add(v, xs[0]), xs[1..], add)
  }

  /** Applies `add` to the group each link names, link by link. */
  function Attach<T>(groups: map<GroupRef, Group>, links: seq<(GroupRef, T)>, add: (Group, T) -> Group): map<GroupRef, Group>
    decreases |links|
  {
    if |links| == 0 then groups
    else
      var a := links[0].0;
      Attach(groups[a := add(Deref(groups, a), links[0].1)], links[1..], add)
  }

  /** Each group ends up as if its own links had been applied to it alone, in order. */
  lemma {:induction false} AttachIs<T>(groups: map<GroupRef, Group>, links: seq<(GroupRef, T)>, add: (Group, T) -> Group, a: GroupRef)
    ensures Deref(Attach(groups, links, add), a) == FoldAdd(Deref(groups, a), Targets(links, a), add)
    decreases |links|
  {
    if |links| > 0 {
      var a0 := links[0].0;
      var groups' := groups[a0 := add(Deref(groups, a0), links[0].1)];
      AttachIs(groups', links[1..], add, a);
      var ts := Targets(links[1..], a);
      if a == a0 {
        assert Deref(groups', a) == add(Deref(groups, a), links[0].1);
        assert Targets(links, a) == [links[0].1] + ts;
        assert ([links[0].1] + ts)[1..] == ts;
        assert FoldAdd(Deref(groups, a), [links[0].1] + ts, add) == FoldAdd(add(Deref(groups, a), links[0].1), ts, add);
      } else {
        assert Deref(groups', a) == Deref(groups, a);
        assert Targets(links, a) == ts;
      }
    }
  }

  /** Applies `add` to the civ group each link names; a civ id without a group is left alone. */
  function UpdateEach<V, T>(d: Dict<V>, links: seq<(int, T)>, add: (V, T) -> V): Dict<V>
    decreases |links|
  {
    if |links| == 0 then d
    else
      var k := links[0].0;
      var d' := match Get(d, k) case None => d case Some(v) => Put(d, k, add(v, links[0].1));
      UpdateEach(d', links[1..], add)
  }

  /** Each entry ends up as if its own links had been applied to it alone; no key appears or vanishes. */
  lemma {:induction false} UpdateEachIs<V, T>(d: Dict<V>, links: seq<(int, T)>, add: (V, T) -> V, k: int)
    ensures Get(UpdateEach(d, links, add), k) ==
      match Get(d, k) case None => None case Some(v) => Some(FoldAdd(v, Targets(links, k), add))
    decreases |links|
  {
    if |links| > 0 {
      var k0 := links[0].0;
      var d' := match Get(d, k0) case None => d case Some(v) => Put(d, k0, add(v, links[0].1));
      UpdateEachIs(d', links[1..], add, k);
      var ts := Targets(links[1..], k);
      if k != k0 {
        assert Get(d', k) == Get(d, k);
        assert Targets(links, k) == ts;
      } else if Get(d, k).Some? {
        var v := Get(d, k).value;
        assert Get(d', k) == Some(add(v, links[0].1));
        assert Targets(links, k) == [links[0].1] + ts;
        assert ([links[0].1] + ts)[1..] == ts;
        assert FoldAdd(v, [links[0].1] + ts, add) == FoldAdd(add(v, links[0].1), ts, add);
      }
    }
  }

  // ----- what each kind of link does to one group -----

  /** The lists of a group that hold other groups. */
  datatype RefSlot = Creates | TradingLines | GarrisonEntities | GarrisonLocations

  function Slot(g: Group, s: RefSlot): seq<GroupRef> {
    match s
    case Creates => g.creates
    case TradingLines => g.tradingLines
    case GarrisonEntities => g.garrisonEntities
    case GarrisonLocations => g.garrisonLocations
  }

  /** `g.<s>.append(x)` */
  function AppendTo(s: RefSlot): (Group, GroupRef) -> Group {
    (g: Group, x: GroupRef) =>
      match s
      case Creates => g.(creates := g.creates + [x])
      case TradingLines => g.(tradingLines := g.tradingLines + [x])
      case GarrisonEntities => g.(garrisonEntities := g.garrisonEntities + [x])
      case GarrisonLocations => g.(garrisonLocations := g.garrisonLocations + [x])
  }

  /** `g.add_researchable(t)` */
  function AddResearch(g: Group, t: TechGroup): Group {
    g.(researches := g.researches + [t])
  }

  /** `g.add_accepted_resource(r)` */
  function AddAccept(g: Group, r: int): Group {
    g.(accepts := g.accepts + {r})
  }

  /** Appending to one slot extends that slot by the items and leaves everything else of the group alone. */
  lemma {:induction false} AppendAll(g: Group, xs: seq<GroupRef>, s: RefSlot)
    ensures Slot(FoldAdd(g, xs, AppendTo(s)), s) == Slot(g, s) + xs
    ensures forall s' :: s' != s ==> Slot(FoldAdd(g, xs, AppendTo(s)), s') == Slot(g, s')
    ensures var h := FoldAdd(g, xs, AppendTo(s));
      h.kind == g.kind && h.id == g.id && h.line == g.line && h.researches == g.researches && h.accepts == g.accepts
    decreases |xs|
  {
    if |xs| > 0 {
      AppendAll(AppendTo(s)(g, xs[0]), xs[1..], s);
      assert Slot(g, s) + [xs[0]] + xs[1..] == Slot(g, s) + xs;
    }
  }

  lemma {:induction false} ResearchAll(g: Group, ts: seq<TechGroup>)
    ensures FoldAdd(g, ts, AddResearch) == g.(researches := g.researches + ts)
    decreases |ts|
  {
    if |ts| > 0 {
      ResearchAll(AddResearch(g, ts[0]), ts[1..]);
      assert g.researches + [ts[0]] + ts[1..] == g.researches + ts;
    }
  }

  lemma {:induction false} AcceptAll(g: Group, rs: seq<int>)
    ensures FoldAdd(g, rs, AddAccept) == g.(accepts := g.accepts + set r | r in rs)
    decreases |rs|
  {
    if |rs| > 0 {
      AcceptAll(AddAccept(g, rs[0]), rs[1..]);
      assert g.accepts + {rs[0]} + (set r | r in rs[1..]) == g.accepts + set r | r in rs;
    }
  }

  // ----- civ groups -----

  /** `add_civ_bonus`, `add_unique_entity` and `add_unique_tech` of a civ group. */
  function AddBonus(c: CivGroup, t: TechGroup): CivGroup {
    c.(bonuses := c.bonuses + [t])
  }

  function AddUniqueLine(c: CivGroup, g: GroupRef): CivGroup {
    c.(uniqueLines := c.uniqueLines + [g])
  }

  function AddUniqueTech(c: CivGroup, t: TechGroup): CivGroup {
    c.(uniqueTechs := c.uniqueTechs + [t])
  }

  lemma {:induction false} BonusAll(c: CivGroup, ts: seq<TechGroup>)
    ensures FoldAdd(c, ts, AddBonus) == c.(bonuses := c.bonuses + ts)
    decreases |ts|
  {
    if |ts| > 0 {
      BonusAll(AddBonus(c, ts[0]), ts[1..]);
      assert c.bonuses + [ts[0]] + ts[1..] == c.bonuses + ts;
    }
  }

  lemma {:induction false} UniqueLineAll(c: CivGroup, gs: seq<GroupRef>)
    ensures FoldAdd(c, gs, AddUniqueLine) == c.(uniqueLines := c.uniqueLines + gs)
    decreases |gs|
  {
    if |gs| > 0 {
      UniqueLineAll(AddUniqueLine(c, gs[0]), gs[1..]);
      assert c.uniqueLines + [gs[0]] + gs[1..] == c.uniqueLines + gs;
    }
  }

  lemma {:induction false} UniqueTechAll(c: CivGroup, ts: seq<TechGroup>)
    ensures FoldAdd(c, ts, AddUniqueTech) == c.(uniqueTechs := c.uniqueTechs + ts)
    decreases |ts|
  {
    if |ts| > 0 {
      UniqueTechAll(AddUniqueTech(c, ts[0]), ts[1..]);
      assert c.uniqueTechs + [ts[0]] + ts[1..] == c.uniqueTechs + ts;
    }
  }

  // ----- what a sequence of links leaves in each group -----

  /** After appending, a group's slot is its old slot followed by the items linked to it; the rest of it is unchanged. */
  lemma AttachSlot(groups: map<GroupRef, Group>, links: seq<(GroupRef, GroupRef)>, s: RefSlot, a: GroupRef)
    ensures var g := Deref(Attach(groups, links, AppendTo(s)), a); var g0 := Deref(groups, a);
      && Slot(g, s) == Slot(g0, s) + Targets(links, a)
      && (forall s' :: s' != s ==> Slot(g, s') == Slot(g0, s'))
      && g.kind == g0.kind && g.line == g0.line && g.researches == g0.researches && g.accepts == g0.accepts
  {
    AttachIs(groups, links, AppendTo(s), a);
    AppendAll(Deref(groups, a), Targets(links, a), s);
  }

  /** Every link is present afterwards: its item is in its target's slot. */
  lemma LinkedInSlot(groups: map<GroupRef, Group>, links: seq<(GroupRef, GroupRef)>, s: RefSlot, a: GroupRef, x: GroupRef)
    requires (a, x) in links
    ensures x in Slot(Deref(Attach(groups, links, AppendTo(s)), a), s)
  {
    AttachSlot(groups, links, s, a);
    TargetsIff(links, a, x);
  }

  lemma AttachResearches(groups: map<GroupRef, Group>, links: seq<(GroupRef, TechGroup)>, a: GroupRef)
    ensures Deref(Attach(groups, links, AddResearch), a) ==
      Deref(groups, a).(researches := Deref(groups, a).researches + Targets(links, a))
  {
    AttachIs(groups, links, AddResearch, a);
    ResearchAll(Deref(groups, a), Targets(links, a));
  }

  /** After the inserts, a group accepts exactly what it accepted before and the resources linked to it. */
  lemma AttachAccepts(groups: map<GroupRef, Group>, links: seq<(GroupRef, int)>, a: GroupRef, x: int)
    ensures Deref(Attach(groups, links, AddAccept), a) ==
      Deref(groups, a).(accepts := Deref(groups, a).accepts + set r | r in Targets(links, a))
    ensures x in Deref(Attach(groups, links, AddAccept), a).accepts <==> x in Deref(groups, a).accepts || (a, x) in links
  {
    AttachIs(groups, links, AddAccept, a);
    AcceptAll(Deref(groups, a), Targets(links, a));
    TargetsIff(links, a, x);
  }

  lemma UpdateBonuses(d: Dict<CivGroup>, links: seq<(int, TechGroup)>, k: int)
    ensures Get(UpdateEach(d, links, AddBonus), k) ==
      match Get(d, k) case None => None case Some(c) => Some(c.(bonuses := c.bonuses + Targets(links, k)))
  {
    UpdateEachIs(d, links, AddBonus, k);
    if Get(d, k).Some? {
      BonusAll(Get(d, k).value, Targets(links, k));
    }
  }

  lemma UpdateUniqueLines(d: Dict<CivGroup>, links: seq<(int, GroupRef)>, k: int)
    ensures Get(UpdateEach(d, links, AddUniqueLine), k) ==
      match Get(d, k) case None => None case Some(c) => Some(c.(uniqueLines := c.uniqueLines + Targets(links, k)))
  {
    UpdateEachIs(d, links, AddUniqueLine, k);
    if Get(d, k).Some? {
      UniqueLineAll(Get(d, k).value, Targets(links, k));
    }
  }

  lemma UpdateUniqueTechs(d: Dict<CivGroup>, links: seq<(int, TechGroup)>, k: int)
    ensures Get(UpdateEach(d, links, AddUniqueTech), k) ==
      match Get(d, k) case None => None case Some(c) => Some(c.(uniqueTechs := c.uniqueTechs + Targets(links, k)))
  {
    UpdateEachIs(d, links, AddUniqueTech, k);
    if Get(d, k).Some? {
      UniqueTechAll(Get(d, k).value, Targets(links, k));
    }
  }
}
