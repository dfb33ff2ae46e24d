/**
 * The geographic characterization-factor calculator of an LCIA category:
 * it clears the factors of the flows bound in a setup, evaluates each
 * binding's formula with the geo-parameters at their default values and
 * appends the results as new factors, and then, when a reference feature
 * collection exists, maps every location of the database to the shares of
 * the features its geometry intersects.
 *
 * Collaborators whose code is not part of this model (the formula
 * interpreter, gunzip, MsgPack decoding and the intersection calculator)
 * are passed in as functions; a Java exception is a `Threw` or `None`
 * result of such a function.
 */
module GeoFactorCalculator {
  import opened Optional

  type byte = bv8

  // ---------------------------------------------------------------------
  // Data model
  // ---------------------------------------------------------------------

  /** An elementary flow; factors and bindings refer to it by `id`. */
  datatype Flow = Flow(id: int, name: string)

  /** A characterization factor of an LCIA category. */
  datatype ImpactFactor = ImpactFactor(flow: Option<Flow>, value: real)

  /** A regionalized parameter and the value used where no region applies. */
  datatype GeoParam = GeoParam(identifier: string, defaultValue: real)

  /** Binds a flow to a formula over the geo-parameters. */
  datatype GeoFlowBinding = GeoFlowBinding(flow: Option<Flow>, formula: string)

  /** A GeoJSON-like geometry; its structure is opaque to this model. */
  datatype Geometry = Geometry(coordinates: seq<real>)

  datatype Feature = Feature(geometry: Option<Geometry>, properties: map<string, real>)

  /** A feature collection; an element may be null. */
  datatype FeatureCollection = FeatureCollection(features: seq<Option<Feature>>)

  /** The calculation setup: parameters, flow bindings and the reference features. */
  datatype Setup = Setup(
    params: seq<GeoParam>,
    bindings: seq<GeoFlowBinding>,
    features: Option<FeatureCollection>)

  /** A location of the database with its gzip-compressed MsgPack geodata. */
  datatype Location = Location(id: int, geodata: Option<seq<byte>>)

  /** The connected database, reduced to what `LocationDao.getAll()` returns. */
  datatype Database = Database(locations: seq<Location>)

  /** A feature of the reference collection and the share of a geometry it covers. */
  datatype Share = Share(feature: Feature, share: real)

  /** The result of a call into code that may throw. */
  datatype Call<T> = Returned(value: T) | Threw

  /** The bindings of a formula interpreter: identifier to value. */
  type Env = map<string, real>

  /** Formula evaluation; `None` when the interpreter throws. */
  type Evaluator = (Env, string) -> Option<real>

  /** gunzip, MsgPack decoding, and `IntersectionCalculator.on(coll).shares(g)`. */
  datatype GeoLibrary = GeoLibrary(
    gunzip: seq<byte> -> Call<Option<seq<byte>>>,
    unpack: seq<byte> -> Call<Option<FeatureCollection>>,
    shares: (FeatureCollection, Geometry) -> Call<seq<Share>>)

  /** Which exit `Run` took; `Done` carries the regional intersections. */
  datatype Outcome =
    | NoSetupOrImpact
    | NoDatabase
    | NoBindings
    | NoFeatures
    | Done(intersections: seq<(Location, seq<Share>)>)

  // ---------------------------------------------------------------------
  // Clearing the factors of the bound flows
  // ---------------------------------------------------------------------

  /** The ids of the flows bound in the setup; bindings without a flow are skipped. */
  function BoundFlowIds(bindings: seq<GeoFlowBinding>): (ids: set<int>)
    ensures forall i :: 0 <= i < |bindings| && bindings[i].flow.Some? ==> bindings[i].flow.value.id in ids
    ensures bindings == [] ==> ids == {}
  {
    set b | b in bindings && b.flow.Some? :: b.flow.value.id
  }

  /** A factor is cleared when it has a flow whose id is bound. */
  predicate IsCleared(f: ImpactFactor, ids: set<int>) {
    f.flow.Some? && f.flow.value.id in ids
  }

  /** The factors `removeIf` keeps, in their original order. */
  function Kept(factors: seq<ImpactFactor>, ids: set<int>): (r: seq<ImpactFactor>)
    ensures |r| <= |factors|
    ensures forall f :: f in r <==> f in factors && !IsCleared(f, ids)
  {
    if factors == [] then []
    else
      var last := factors[|factors| - 1];
      Kept(factors[..|factors| - 1], ids) + (if IsCleared(last, ids) then [] else [last])
  }

  /** Filtering a concatenation filters each part: the kept factors keep their order. */
  lemma {:induction false} KeptConcat(a: seq<ImpactFactor>, b: seq<ImpactFactor>, ids: set<int>)
    ensures Kept(a + b, ids) == Kept(a, ids) + Kept(b, ids)
  {
    if b == [] {
      assert a + b == a;
    } else {
      var b' := b[..|b| - 1];
      assert (a + b)[..|a + b| - 1] == a + b';
      KeptConcat(a, b', ids);
    }
  }

  /** A list none of whose factors is cleared is kept as it is. */
  lemma {:induction false} KeptNoneCleared(factors: seq<ImpactFactor>, ids: set<int>)
    requires forall i :: 0 <= i < |factors| ==> !IsCleared(factors[i], ids)
    ensures Kept(factors, ids) == factors
  {
    if factors != [] {
      var n := |factors| - 1;
      var init := factors[..n];
      KeptNoneCleared(init, ids);
      assert !IsCleared(factors[n], ids);
      assert Kept(factors, ids) == Kept(init, ids) + [factors[n]];
      assert init + [factors[n]] == factors;
    }
  }

  /** A list all of whose factors are cleared is cleared completely. */
  lemma {:induction false} KeptAllCleared(factors: seq<ImpactFactor>, ids: set<int>)
    requires forall i :: 0 <= i < |factors| ==> IsCleared(factors[i], ids)
    ensures Kept(factors, ids) == []
  {
    if factors != [] {
      var n := |factors| - 1;
      KeptAllCleared(factors[..n], ids);
      assert IsCleared(factors[n], ids);
    }
  }

  /** Clearing twice clears nothing more. */
  lemma KeptIdempotent(factors: seq<ImpactFactor>, ids: set<int>)
    ensures Kept(Kept(factors, ids), ids) == Kept(factors, ids)
  {
    var kept := Kept(factors, ids);
    assert forall i :: 0 <= i < |kept| ==> kept[i] in kept;
    KeptNoneCleared(kept, ids);
  }

  // ---------------------------------------------------------------------
  // Default values
  // ---------------------------------------------------------------------

  /** The interpreter's bindings after binding every parameter in order; a later
      parameter with the same identifier overwrites an earlier one. */
  function DefaultEnv(params: seq<GeoParam>): (env: Env)
    ensures env.Keys == set p | p in params :: p.identifier
  {
    if params == [] then map[]
    else
      var last := params[|params| - 1];
      DefaultEnv(params[..|params| - 1])[last.identifier := last.defaultValue]
  }

  /** Each identifier is bound to the default value of the last parameter carrying it. */
  lemma {:induction false} DefaultEnvLastWins(params: seq<GeoParam>, i: nat)
    requires i < |params|
    requires forall j :: i < j < |params| ==> params[j].identifier != params[i].identifier
    ensures params[i].identifier in DefaultEnv(params)
    ensures DefaultEnv(params)[params[i].identifier] == params[i].defaultValue
  {
    if i < |params| - 1 {
      DefaultEnvLastWins(params[..|params| - 1], i);
    }
  }

  /** A binding produces a default factor when it has a flow and its formula evaluates. */
  predicate Succeeds(b: GeoFlowBinding, env: Env, eval: Evaluator) {
    b.flow.Some? && eval(env, b.formula).Some?
  }

  /** The factors the default pass appends, one per succeeding binding, in binding order. */
  function DefaultFactors(env: Env, bindings: seq<GeoFlowBinding>, eval: Evaluator): (r: seq<ImpactFactor>)
    ensures |r| <= |bindings|
    ensures forall f :: f in r <==>
      exists b :: b in bindings && Succeeds(b, env, eval) && f == ImpactFactor(b.flow, eval(env, b.formula).value)
  {
    if bindings == [] then []
    else
      var init, last := bindings[..|bindings| - 1], bindings[|bindings| - 1];
      assert forall b :: b in bindings <==> b in init || b == last;
      DefaultFactors(env, init, eval)
        + (if Succeeds(last, env, eval) then [ImpactFactor(last.flow, eval(env, last.formula).value)] else [])
  }

  /** The default pass handles the bindings one after another: a failing binding
      adds nothing and does not stop the ones after it. */
  lemma {:induction false} DefaultFactorsConcat(env: Env, a: seq<GeoFlowBinding>, b: seq<GeoFlowBinding>, eval: Evaluator)
    ensures DefaultFactors(env, a + b, eval) == DefaultFactors(env, a, eval) + DefaultFactors(env, b, eval)
  {
    if b == [] {
      assert a + b == a;
    } else {
      var b' := b[..|b| - 1];
      assert (a + b)[..|a + b| - 1] == a + b';
      DefaultFactorsConcat(env, a, b', eval);
    }
  }

  /** Every appended factor belongs to a bound flow, so a later clear removes it. */
  lemma DefaultFactorsAreCleared(env: Env, bindings: seq<GeoFlowBinding>, eval: Evaluator)
    ensures forall f :: f in DefaultFactors(env, bindings, eval) ==> IsCleared(f, BoundFlowIds(bindings))
  {
  }

  /** The `defaults` map: flow id to the value of its formula. */
  function DefaultMap(env: Env, bindings: seq<GeoFlowBinding>, eval: Evaluator): (m: map<int, real>)
    ensures m.Keys == set b | b in bindings && Succeeds(b, env, eval) :: b.flow.value.id
  {
    if bindings == [] then map[]
    else
      var init, last := bindings[..|bindings| - 1], bindings[|bindings| - 1];
      assert forall b :: b in bindings <==> b in init || b == last;
      var m := DefaultMap(env, init, eval);
      if Succeeds(last, env, eval) then m[last.flow.value.id := eval(env, last.formula).value] else m
  }

  /** A flow's default is the value of the last succeeding binding of that flow id. */
  lemma {:induction false} DefaultMapLastWins(env: Env, bindings: seq<GeoFlowBinding>, eval: Evaluator, i: nat)
    requires i < |bindings| && Succeeds(bindings[i], env, eval)
    requires forall j :: i < j < |bindings| && Succeeds(bindings[j], env, eval) ==>
      bindings[j].flow.value.id != bindings[i].flow.value.id
    ensures bindings[i].flow.value.id in DefaultMap(env, bindings, eval)
    ensures DefaultMap(env, bindings, eval)[bindings[i].flow.value.id] == eval(env, bindings[i].formula).value
  {
    if i < |bindings| - 1 {
      DefaultMapLastWins(env, bindings[..|bindings| - 1], eval, i);
    }
  }

  /** The factor list after a full run that got past the input checks. */
  function Recalculated(s: Setup, factors: seq<ImpactFactor>, eval: Evaluator): (r: seq<ImpactFactor>)
    ensures |r| <= |factors| + |s.bindings|
    ensures forall f :: f in factors && !IsCleared(f, BoundFlowIds(s.bindings)) ==> f in r
    ensures forall f :: f in r && f !in factors ==> IsCleared(f, BoundFlowIds(s.bindings))
  {
    Kept(factors, BoundFlowIds(s.bindings)) + DefaultFactors(DefaultEnv(s.params), s.bindings, eval)
  }

  /** Running the calculator a second time leaves the factor list as the first run left it. */
  lemma {:induction false} RecalculatedIdempotent(s: Setup, factors: seq<ImpactFactor>, eval: Evaluator)
    ensures Recalculated(s, Recalculated(s, factors, eval), eval) == Recalculated(s, factors, eval)
  {
    var ids := BoundFlowIds(s.bindings);
    var defaults := DefaultFactors(DefaultEnv(s.params), s.bindings, eval);
    var kept := Kept(factors, ids);
    assert Recalculated(s, factors, eval) == kept + defaults;
    KeptConcat(kept, defaults, ids);
    KeptIdempotent(factors, ids);
    DefaultFactorsAreCleared(DefaultEnv(s.params), s.bindings, eval);
    assert forall i :: 0 <= i < |defaults| ==> defaults[i] in defaults;
    KeptAllCleared(defaults, ids);
    assert Kept(kept + defaults, ids) == kept;
  }

  /** The factors that survive the clear are exactly the unbound ones, and the
      factors of bound flows afterwards are exactly the defaults. */
  lemma RecalculatedFactorsOfBoundFlows(s: Setup, factors: seq<ImpactFactor>, eval: Evaluator, f: ImpactFactor)
    ensures !IsCleared(f, BoundFlowIds(s.bindings)) ==>
      (f in Recalculated(s, factors, eval) <==> f in factors)
    ensures IsCleared(f, BoundFlowIds(s.bindings)) ==>
      (f in Recalculated(s, factors, eval) <==> f in DefaultFactors(DefaultEnv(s.params), s.bindings, eval))
  {
    DefaultFactorsAreCleared(DefaultEnv(s.params), s.bindings, eval);
  }

  // ---------------------------------------------------------------------
  // Regional pass
  // ---------------------------------------------------------------------

  /** The geometry of the first feature of a location's geodata, or `None` when the
      geodata is missing, cannot be read, is empty or has no first geometry. */
  function FirstGeometry(loc: Location, geo: GeoLibrary): (g: Option<Geometry>)
    ensures loc.geodata.None? ==> g.None?
    ensures g.Some? ==> exists data: seq<byte>, coll: FeatureCollection ::
      && geo.gunzip(loc.geodata.value) == Returned(Some(data))
      && geo.unpack(data) == Returned(Some(coll))
      && |coll.features| > 0 && coll.features[0].Some?
      && coll.features[0].value.geometry == g
  {
    match loc.geodata
    case None => None
    case Some(zipped) =>
      match geo.gunzip(zipped)
      case Threw => None
      case Returned(None) => None
      case Returned(Some(data)) =>
        match geo.unpack(data)
        case Threw => None
        case Returned(None) => None
        case Returned(Some(coll)) =>
          if coll.features == [] then None
          else
            match coll.features[0]
            case None => None
            case Some(first) => first.geometry
  }

  /** The shares of the reference features that intersect a location's geometry;
      empty whenever a step fails. */
  function GetIntersections(loc: Location, coll: FeatureCollection, geo: GeoLibrary): (r: seq<Share>)
    ensures loc.geodata.None? ==> r == []
    ensures r != [] ==> exists g :: FirstGeometry(loc, geo) == Some(g) && geo.shares(coll, g) == Returned(r)
  {
    match FirstGeometry(loc, geo)
    case None => []
    case Some(g) =>
      match geo.shares(coll, g)
      case Threw => []
      case Returned(s) => s
  }

  /** Each failure of the guard chain gives the empty list: unreadable or null
      unzipped data, an unreadable, null or empty collection, and a null first
      feature or geometry. */
  lemma GetIntersectionsFailSoft(
    loc: Location, coll: FeatureCollection, geo: GeoLibrary,
    zipped: seq<byte>, data: seq<byte>, unpacked: FeatureCollection)
    requires loc.geodata == Some(zipped)
    ensures geo.gunzip(zipped).Threw? ==> GetIntersections(loc, coll, geo) == []
    ensures geo.gunzip(zipped) == Returned(None) ==> GetIntersections(loc, coll, geo) == []
    ensures geo.gunzip(zipped) == Returned(Some(data)) && geo.unpack(data).Threw? ==>
      GetIntersections(loc, coll, geo) == []
    ensures geo.gunzip(zipped) == Returned(Some(data)) && geo.unpack(data) == Returned(None) ==>
      GetIntersections(loc, coll, geo) == []
    ensures (geo.gunzip(zipped) == Returned(Some(data)) && geo.unpack(data) == Returned(Some(unpacked))
             && (unpacked.features == [] || unpacked.features[0].None? || unpacked.features[0].value.geometry.None?))
      ==> GetIntersections(loc, coll, geo) == []
    ensures FirstGeometry(loc, geo).Some? && geo.shares(coll, FirstGeometry(loc, geo).value).Threw? ==>
      GetIntersections(loc, coll, geo) == []
  {
  }

  /** When every step succeeds, the result is what the intersection calculator
      returns for the first feature's geometry. */
  lemma GetIntersectionsOnSuccess(
    loc: Location, coll: FeatureCollection, geo: GeoLibrary,
    zipped: seq<byte>, data: seq<byte>, unpacked: FeatureCollection, g: Geometry, s: seq<Share>)
    requires loc.geodata == Some(zipped)
    requires geo.gunzip(zipped) == Returned(Some(data))
    requires geo.unpack(data) == Returned(Some(unpacked))
    requires |unpacked.features| > 0 && unpacked.features[0].Some?
    requires unpacked.features[0].value.geometry == Some(g)
    requires geo.shares(coll, g) == Returned(s)
    ensures GetIntersections(loc, coll, geo) == s
  {
  }

  /** One entry per location, in the order of the locations. */
  function Intersections(locations: seq<Location>, coll: FeatureCollection, geo: GeoLibrary)
    : (r: seq<(Location, seq<Share>)>)
    ensures |r| == |locations|
    ensures forall i :: 0 <= i < |locations| ==>
      r[i].0 == locations[i] && r[i].1 == GetIntersections(locations[i], coll, geo)
  {
    if locations == [] then []
    else [(locations[0], GetIntersections(locations[0], coll, geo))] + Intersections(locations[1..], coll, geo)
  }

  // ---------------------------------------------------------------------
  // The mutable state and the calculator
  // ---------------------------------------------------------------------

  /** An LCIA category; only its factor list is part of this model. */
  class ImpactCategory {
    var impactFactors: seq<ImpactFactor>

    constructor (factors: seq<ImpactFactor>)
      ensures impactFactors == factors
    {
      impactFactors := factors;
    }

    /** `removeIf(f -> f.flow != null && ids.contains(f.flow.id))`. */
    method RemoveIfCleared(ids: set<int>)
      modifies this
      ensures impactFactors == Kept(old(impactFactors), ids)
    {
      var kept: seq<ImpactFactor> := [];
      var i := 0;
      while i < |impactFactors|
        invariant 0 <= i <= |impactFactors|
        invariant kept == Kept(impactFactors[..i], ids)
      {
        var f := impactFactors[i];
        assert impactFactors[..i + 1][..i] == impactFactors[..i];
        if !IsCleared(f, ids) {
          kept := kept + [f];
        }
        i := i + 1;
      }
      assert impactFactors[..i] == impactFactors;
      impactFactors := kept;
    }

    /** `addFactor(flow)` followed by setting the new factor's value. */
    method AddFactor(flow: Flow, value: real)
      modifies this
      ensures impactFactors == old(impactFactors) + [ImpactFactor(Some(flow), value)]
    {
      impactFactors := impactFactors + [ImpactFactor(Some(flow), value)];
    }
  }

  /** Collects the ids of the bound flows, skipping bindings without a flow. */
  method CollectSetupFlows(bindings: seq<GeoFlowBinding>) returns (ids: set<int>)
    ensures ids == BoundFlowIds(bindings)
    ensures forall id :: id in ids <==> exists b :: b in bindings && b.flow.Some? && b.flow.value.id == id
  {
    ids := {};
    for i := 0 to |bindings|
      invariant ids == BoundFlowIds(bindings[..i])
    {
      assert bindings[..i + 1] == bindings[..i] + [bindings[i]];
      var b := bindings[i];
      if b.flow.None? {
        continue;
      }
      ids := ids + {b.flow.value.id};
    }
    assert bindings[..|bindings|] == bindings;
  }

  /** Binds every parameter identifier to its default value, in order. */
  method BindDefaults(params: seq<GeoParam>) returns (env: Env)
    ensures env == DefaultEnv(params)
    ensures env.Keys == set p | p in params :: p.identifier
    ensures forall i :: 0 <= i < |params| ==>
      ((forall j :: i < j < |params| ==> params[j].identifier != params[i].identifier)
       ==> env[params[i].identifier] == params[i].defaultValue)
  {
    env := map[];
    for i := 0 to |params|
      invariant env == DefaultEnv(params[..i])
    {
      assert params[..i + 1][..i] == params[..i];
      env := env[params[i].identifier := params[i].defaultValue];
    }
    assert params[..|params|] == params;
    forall i | 0 <= i < |params| && (forall j :: i < j < |params| ==> params[j].identifier != params[i].identifier)
      ensures env[params[i].identifier] == params[i].defaultValue
    {
      DefaultEnvLastWins(params, i);
    }
  }

  class Calculator {
    const setup: Option<Setup>
    const impact: ImpactCategory?

    constructor (setup: Option<Setup>, impact: ImpactCategory?)
      ensures this.setup == setup && this.impact == impact
    {
      this.setup := setup;
      this.impact := impact;
    }

    /** Checks the input, clears and recomputes the default factors, and maps the
        locations to their intersections when reference features exist. */
    method Run(db: Option<Database>, eval: Evaluator, geo: GeoLibrary) returns (outcome: Outcome)
      modifies impact
      ensures setup.None? || impact == null ==> outcome == NoSetupOrImpact
      ensures setup.None? && impact != null ==> impact.impactFactors == old(impact.impactFactors)
      ensures setup.Some? && impact != null && db.None? ==>
        outcome == NoDatabase && impact.impactFactors == old(impact.impactFactors)
      ensures setup.Some? && impact != null && db.Some? && setup.value.bindings == [] ==>
        outcome == NoBindings && impact.impactFactors == old(impact.impactFactors)
      ensures setup.Some? && impact != null && db.Some? && setup.value.bindings != [] ==>
        impact.impactFactors == Recalculated(setup.value, old(impact.impactFactors), eval)
        && outcome == match setup.value.features
          case None => NoFeatures
          case Some(coll) =>
            if coll.features == [] then NoFeatures
            else Done(Intersections(db.value.locations, coll, geo))
    {
      if setup.None? || impact == null {
        return NoSetupOrImpact;
      }
      if db.None? {
        return NoDatabase;
      }
      if setup.value.bindings == [] {
        return NoBindings;
      }

      ClearFactors();
      var defaults := CalcDefaultValues(eval);

      var coll := setup.value.features;
      if coll.None? || coll.value.features == [] {
        return NoFeatures;
      }
      var intersections := Intersections(db.value.locations, coll.value, geo);
      return Done(intersections);
    }

    /** Removes the factors of the flows that are bound in the setup. */
    method ClearFactors()
      requires setup.Some? && impact != null
      modifies impact
      ensures impact.impactFactors == Kept(old(impact.impactFactors), BoundFlowIds(setup.value.bindings))
    {
      var setupFlows := CollectSetupFlows(setup.value.bindings);
      impact.RemoveIfCleared(setupFlows);
    }

    /** Evaluates every binding with the parameters at their defaults, records the
        values by flow id and appends one factor per succeeding binding. */
    method CalcDefaultValues(eval: Evaluator) returns (defaults: map<int, real>)
      requires setup.Some? && impact != null
      modifies impact
      ensures defaults == DefaultMap(DefaultEnv(setup.value.params), setup.value.bindings, eval)
      ensures impact.impactFactors ==
        old(impact.impactFactors) + DefaultFactors(DefaultEnv(setup.value.params), setup.value.bindings, eval)
    {
      defaults := map[];
      var env := BindDefaults(setup.value.params);
      var bindings := setup.value.bindings;
      for i := 0 to |bindings|
        invariant defaults == DefaultMap(env, bindings[..i], eval)
        invariant impact.impactFactors == old(impact.impactFactors) + DefaultFactors(env, bindings[..i], eval)
      {
        assert bindings[..i + 1][..i] == bindings[..i];
        var b := bindings[i];
        if b.flow.None? {
          continue;
        }
        match eval(env, b.formula)
        case Some(val) =>
          defaults := defaults[b.flow.value.id := val];
          impact.AddFactor(b.flow.value, val);
        case None =>
      }
      assert bindings[..|bindings|] == bindings;
    }
  }
}
