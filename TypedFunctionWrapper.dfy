/**
 * Model of typed_python/compiler/type_wrappers/python_typed_function_wrapper.py:
 * how the compiler decides, for a call to a typed function with given argument
 * types, whether one overload is the only one that can match, which return
 * types a dispatch over several overloads can produce, and which signature an
 * overload is specialised to.
 *
 * The compiler's services are parameters: `can_convert_to_type` is an oracle
 * returning Yes, Maybe or No; `converter.convert` is an oracle giving, per
 * overload, the output type of the compiled target (None when it cannot be
 * compiled); `OneOfWrapper.mergeTypes` is an oracle over lists of types.
 */
module TypedFunctionWrapper {
  import opened Wrappers
  import opened Internals

  /** The three answers of a conversion or match test: True, "Maybe", False. */
  datatype MatchResult = Yes | Maybe | No

  /** The type wrapper of an actual argument. */
  datatype ArgWrapper = ArgWrapper(id: nat, typeRepresentation: PyType)

  /** `argType.can_convert_to_type(typeWrapper(target), isExplicit)`. */
  type ConvertibilityOracle = (ArgWrapper, PyType, bool) -> MatchResult

  /** The type an argument must convert to: its filter, or `object` when unfiltered. */
  function TargetType(a: FunctionOverloadArg): PyType {
    a.typeFilter.GetOr(ObjectType)
  }

  /** The argument count matches and the overload takes no `*args` or `**kwargs`. */
  predicate ShapeMatches(o: Overload, argTypes: seq<ArgWrapper>) {
    |argTypes| == |o.args| && forall j :: 0 <= j < |o.args| ==> !o.args[j].isStarArg && !o.args[j].isKwarg
  }

  /**
   * Whether a call with `argTypes` can reach overload `o`: No when the shape
   * differs or some argument cannot convert; Yes when every argument surely
   * converts; Maybe otherwise.
   */
  function MatchSpec(o: Overload, argTypes: seq<ArgWrapper>, canConvert: ConvertibilityOracle, isExplicit: bool): MatchResult {
    if !ShapeMatches(o, argTypes) then No
    else if exists j :: 0 <= j < |argTypes| && canConvert(argTypes[j], TargetType(o.args[j]), isExplicit) == No then No
    else if forall j :: 0 <= j < |argTypes| ==> canConvert(argTypes[j], TargetType(o.args[j]), isExplicit) == Yes then Yes
    else Maybe
  }

  /** `overloadMatchesSignature(overload, argTypes, isExplicit)`. */
  method OverloadMatchesSignature(o: Overload, argTypes: seq<ArgWrapper>, canConvert: ConvertibilityOracle, isExplicit: bool)
    returns (m: MatchResult)
    ensures m == MatchSpec(o, argTypes, canConvert, isExplicit)
  {
    if !ShapeMatches(o, argTypes) {
      return No;
    }
    var allTrue := true;
    var i := 0;
    while i < |argTypes|
      invariant 0 <= i <= |argTypes|
      invariant forall j :: 0 <= j < i ==> canConvert(argTypes[j], TargetType(o.args[j]), isExplicit) != No
      invariant allTrue <==> forall j :: 0 <= j < i ==> canConvert(argTypes[j], TargetType(o.args[j]), isExplicit) == Yes
    {
      var c := canConvert(argTypes[i], TargetType(o.args[i]), isExplicit);
      if c == No {
        return No;
      } else if c == Maybe {
        allTrue := false;
      }
      i := i + 1;
    }
    if allTrue {
      return Yes;
    } else {
      return Maybe;
    }
  }

  /**
   * A call to a typed function.  The overloads are scanned twice, first with
   * implicit and then with explicit conversion; position `q` of the scan is
   * overload `q` (first pass) or `q - n` (second pass).
   */
  datatype CallSite = CallSite(overloads: seq<Overload>, argTypes: seq<ArgWrapper>, canConvert: ConvertibilityOracle)
  {
    function Positions(): nat {
      2 * |overloads|
    }

    function OverloadAt(q: nat): (o: nat)
      requires q < Positions()
      ensures o < |overloads|
    {
      if q < |overloads| then q else q - |overloads|
    }

    function Matches(o: nat, isExplicit: bool): MatchResult
      requires o < |overloads|
    {
      MatchSpec(overloads[o], argTypes, canConvert, isExplicit)
    }

    function MatchAt(q: nat): MatchResult
      requires q < Positions()
    {
      Matches(OverloadAt(q), q >= |overloads|)
    }
  }

  /** A chosen overload and whether it needs explicit conversion. */
  datatype Candidate = Candidate(overload: nat, isExplicit: bool)

  /** The answer of `pickSingleOverloadForCall`, scanning from position `q` with `possibleMaybe` so far. */
  function PickFrom(c: CallSite, q: nat, possibleMaybe: Option<Candidate>): Option<Candidate>
    requires q <= c.Positions()
    decreases c.Positions() - q
  {
    if q == c.Positions() then possibleMaybe
    else
      var here := Candidate(c.OverloadAt(q), q >= |c.overloads|);
      var promotes := possibleMaybe == Some(Candidate(here.overload, false)) && here.isExplicit;
      match c.MatchAt(q)
      case No => PickFrom(c, q + 1, possibleMaybe)
      case Yes =>
        if possibleMaybe.None? then Some(here)
        else if promotes then Some(here)
        else None
      case Maybe =>
        if possibleMaybe.None? || promotes then PickFrom(c, q + 1, Some(here))
        else None
  }

  /** `pickSingleOverloadForCall(func, argTypes)`. */
  method PickSingleOverloadForCall(overloads: seq<Overload>, argTypes: seq<ArgWrapper>, canConvert: ConvertibilityOracle)
    returns (r: Option<Candidate>)
    ensures r == PickFrom(CallSite(overloads, argTypes, canConvert), 0, None)
  {
    ghost var c := CallSite(overloads, argTypes, canConvert);
    var n := |overloads|;
    var possibleMaybe: Option<Candidate> := None;
    var pass := 0;
    var base := 0;
    while pass < 2
      invariant 0 <= pass <= 2
      invariant base == if pass == 0 then 0 else if pass == 1 then n else 2 * n
      invariant PickFrom(c, base, possibleMaybe) == PickFrom(c, 0, None)
    {
      var isExplicit := pass == 1;
      var o := 0;
      while o < n
        invariant 0 <= o <= n
        invariant PickFrom(c, base + o, possibleMaybe) == PickFrom(c, 0, None)
      {
        var mightMatch := OverloadMatchesSignature(overloads[o], argTypes, canConvert, isExplicit);
        assert c.OverloadAt(base + o) == o && (base + o >= n) == isExplicit;
        if mightMatch == Yes {
          if possibleMaybe.Some? {
            if possibleMaybe == Some(Candidate(o, false)) && isExplicit {
              return Some(Candidate(o, true));
            } else {
              return None;
            }
          } else {
            return Some(Candidate(o, isExplicit));
          }
        } else if mightMatch == Maybe {
          if possibleMaybe.None? {
            possibleMaybe := Some(Candidate(o, isExplicit));
          } else if possibleMaybe == Some(Candidate(o, false)) && isExplicit {
            possibleMaybe := Some(Candidate(o, isExplicit));
          } else {
            return None;
          }
        }
        o := o + 1;
      }
      pass := pass + 1;
      base := base + n;
    }
    return possibleMaybe;
  }

  /**
   * What a picked candidate guarantees: it can match; no earlier overload
   * matches implicitly; when explicit conversion is needed, no other
   * overload matches implicitly, the candidate itself does not surely match
   * implicitly, and no earlier overload matches explicitly.  A candidate
   * that only might match is the only overload that might match at all, in
   * either pass; and one picked without explicit conversion cannot match
   * explicitly either (otherwise it would have been promoted).
   */
  predicate SoleCandidate(c: CallSite, cand: Candidate) {
    && cand.overload < |c.overloads|
    && c.Matches(cand.overload, cand.isExplicit) != No
    && (forall o :: 0 <= o < cand.overload ==> c.Matches(o, false) == No)
    && (cand.isExplicit ==>
          && (forall o :: 0 <= o < |c.overloads| && o != cand.overload ==> c.Matches(o, false) == No)
          && c.Matches(cand.overload, false) != Yes
          && (forall o :: 0 <= o < cand.overload ==> c.Matches(o, true) == No))
    && (c.Matches(cand.overload, cand.isExplicit) == Maybe ==>
          forall o, e :: 0 <= o < |c.overloads| && o != cand.overload ==> c.Matches(o, e) == No)
    && (!cand.isExplicit && c.Matches(cand.overload, false) == Maybe ==> c.Matches(cand.overload, true) == No)
  }

  /** What the scan up to position `q` has established about `possibleMaybe`. */
  predicate ScanState(c: CallSite, q: nat, possibleMaybe: Option<Candidate>)
    requires q <= c.Positions()
  {
    var n := |c.overloads|;
    match possibleMaybe
    case None => forall p :: 0 <= p < q ==> c.MatchAt(p) == No
    case Some(Candidate(o, false)) =>
      && o < n && o < q && c.MatchAt(o) == Maybe
      && forall p :: 0 <= p < q && p != o ==> c.MatchAt(p) == No
    case Some(Candidate(o, true)) =>
      && o < n && n + o < q && c.MatchAt(n + o) == Maybe && c.MatchAt(o) != Yes
      && forall p :: 0 <= p < q && p != o && p != n + o ==> c.MatchAt(p) == No
  }

  /** The candidate left at the end of the scan is the sole candidate. */
  lemma ScanEndSole(c: CallSite, possibleMaybe: Option<Candidate>)
    requires ScanState(c, c.Positions(), possibleMaybe) && possibleMaybe.Some?
    ensures SoleCandidate(c, possibleMaybe.value)
  {
    var n := |c.overloads|;
    var o := possibleMaybe.value.overload;
    forall o' | 0 <= o' < n
      ensures c.MatchAt(o') == c.Matches(o', false)
    {
    }
    forall o' | 0 <= o' < n
      ensures c.MatchAt(n + o') == c.Matches(o', true)
    {
      assert c.OverloadAt(n + o') == o';
    }
    forall o', e | 0 <= o' < n && o' != o
      ensures c.Matches(o', e) == No
    {
      assert c.MatchAt(o') == No && c.MatchAt(n + o') == No;
    }
    if !possibleMaybe.value.isExplicit {
      assert c.MatchAt(n + o) == No;
    } else {
      forall o' | 0 <= o' < o
        ensures c.Matches(o', true) == No
      {
        assert n + o' != o && n + o' != n + o;
      }
    }
  }

  /** A sure match at position `q` that the scan returns is the sole candidate. */
  lemma YesSole(c: CallSite, q: nat, possibleMaybe: Option<Candidate>)
    requires q < c.Positions() && ScanState(c, q, possibleMaybe) && c.MatchAt(q) == Yes
    requires possibleMaybe.None? || (possibleMaybe == Some(Candidate(c.OverloadAt(q), false)) && q >= |c.overloads|)
    ensures SoleCandidate(c, Candidate(c.OverloadAt(q), q >= |c.overloads|))
  {
    var n := |c.overloads|;
    forall o' | 0 <= o' < n
      ensures c.MatchAt(o') == c.Matches(o', false)
    {
    }
    if q >= n {
      var o := q - n;
      forall o' | 0 <= o' < o
        ensures c.Matches(o', true) == No
      {
        assert n + o' != o && n + o' < q;
        assert c.MatchAt(n + o') == No;
        assert c.OverloadAt(n + o') == o';
      }
    }
  }

  /** A possible match at position `q` that the scan keeps becomes the new `possibleMaybe`. */
  lemma MaybeStep(c: CallSite, q: nat, possibleMaybe: Option<Candidate>)
    requires q < c.Positions() && ScanState(c, q, possibleMaybe) && c.MatchAt(q) == Maybe
    requires possibleMaybe.None? || (possibleMaybe == Some(Candidate(c.OverloadAt(q), false)) && q >= |c.overloads|)
    ensures ScanState(c, q + 1, Some(Candidate(c.OverloadAt(q), q >= |c.overloads|)))
  {
    var n := |c.overloads|;
    if q >= n {
      var o := q - n;
      assert c.OverloadAt(q) == o && n + o == q;
      if possibleMaybe.None? {
        assert c.MatchAt(o) == No;
      }
    }
  }

  /** A position that cannot match leaves what the scan knows intact. */
  lemma NoStep(c: CallSite, q: nat, possibleMaybe: Option<Candidate>)
    requires q < c.Positions() && ScanState(c, q, possibleMaybe) && c.MatchAt(q) == No
    ensures ScanState(c, q + 1, possibleMaybe)
  {
  }

  lemma {:induction false} PickFromSound(c: CallSite, q: nat, possibleMaybe: Option<Candidate>)
    requires q <= c.Positions()
    requires ScanState(c, q, possibleMaybe)
    ensures var r := PickFrom(c, q, possibleMaybe); r.Some? ==> SoleCandidate(c, r.value)
    decreases c.Positions() - q
  {
    if q == c.Positions() {
      if possibleMaybe.Some? {
        ScanEndSole(c, possibleMaybe);
      }
      return;
    }
    var here := Candidate(c.OverloadAt(q), q >= |c.overloads|);
    var promotes := possibleMaybe == Some(Candidate(here.overload, false)) && here.isExplicit;
    match c.MatchAt(q)
    case No =>
      NoStep(c, q, possibleMaybe);
      PickFromSound(c, q + 1, possibleMaybe);
    case Yes =>
      if possibleMaybe.None? || promotes {
        YesSole(c, q, possibleMaybe);
      }
    case Maybe =>
      if possibleMaybe.None? || promotes {
        MaybeStep(c, q, possibleMaybe);
        PickFromSound(c, q + 1, Some(here));
      }
  }

  /** When no position can match, nothing is picked. */
  lemma {:induction false} PickFromNone(c: CallSite, q: nat)
    requires q <= c.Positions()
    requires forall p :: q <= p < c.Positions() ==> c.MatchAt(p) == No
    ensures PickFrom(c, q, None) == None
    decreases c.Positions() - q
  {
    if q < c.Positions() {
      PickFromNone(c, q + 1);
    }
  }

  /** An overload that surely matches implicitly, after overloads that cannot match, is picked. */
  lemma {:induction false} PickFromFirstYes(c: CallSite, q: nat, o: nat)
    requires q <= o < |c.overloads|
    requires forall p :: q <= p < o ==> c.Matches(p, false) == No
    requires c.Matches(o, false) == Yes
    ensures PickFrom(c, q, None) == Some(Candidate(o, false))
    decreases o - q
  {
    assert c.MatchAt(q) == c.Matches(q, false);
    if q < o {
      PickFromFirstYes(c, q + 1, o);
    }
  }

  /** Positions that cannot match are passed over without changing the scan. */
  lemma {:induction false} PickFromSkip(c: CallSite, q: nat, r: nat, possibleMaybe: Option<Candidate>)
    requires q <= r <= c.Positions()
    requires forall p :: q <= p < r ==> c.MatchAt(p) == No
    ensures PickFrom(c, q, possibleMaybe) == PickFrom(c, r, possibleMaybe)
    decreases r - q
  {
    if q < r {
      PickFromSkip(c, q + 1, r, possibleMaybe);
    }
  }

  /**
   * The scan over every position before the explicit pass reaches overload
   * `o`, when every other overload cannot match implicitly and every
   * earlier one cannot match explicitly: only `o`'s own implicit answer is
   * remembered.
   */
  lemma ScanToExplicit(c: CallSite, o: nat)
    requires o < |c.overloads|
    requires forall p :: 0 <= p < |c.overloads| && p != o ==> c.Matches(p, false) == No
    requires forall p :: 0 <= p < o ==> c.Matches(p, true) == No
    requires c.Matches(o, false) != Yes
    ensures PickFrom(c, 0, None) ==
      PickFrom(c, |c.overloads| + o, if c.Matches(o, false) == Maybe then Some(Candidate(o, false)) else None)
  {
    var n := |c.overloads|;
    forall p | 0 <= p < n + o && p != o
      ensures c.MatchAt(p) == No
    {
      if p >= n {
        assert c.OverloadAt(p) == p - n;
      }
    }
    PickFromSkip(c, 0, o, None);
    var pm := if c.Matches(o, false) == Maybe then Some(Candidate(o, false)) else None;
    assert c.MatchAt(o) == c.Matches(o, false);
    assert PickFrom(c, o, None) == PickFrom(c, o + 1, pm);
    PickFromSkip(c, o + 1, n + o, pm);
  }

  /**
   * An overload that surely matches explicitly is picked with explicit
   * conversion when no other overload matches implicitly, it does not surely
   * match implicitly itself, and no earlier overload matches explicitly; this
   * covers both the first explicit sure match after an implicit pass where
   * nothing matched and the promotion of the overload's own implicit
   * possible match.
   */
  lemma ExplicitYesPicked(c: CallSite, o: nat)
    requires o < |c.overloads|
    requires forall p :: 0 <= p < |c.overloads| && p != o ==> c.Matches(p, false) == No
    requires forall p :: 0 <= p < o ==> c.Matches(p, true) == No
    requires c.Matches(o, false) != Yes && c.Matches(o, true) == Yes
    ensures PickFrom(c, 0, None) == Some(Candidate(o, true))
  {
    ScanToExplicit(c, o);
    assert c.OverloadAt(|c.overloads| + o) == o;
  }

  /**
   * The only overload that might match, in either pass, and that surely
   * matches in neither, is picked; with explicit conversion exactly when it
   * might match explicitly (a possible implicit match is promoted).
   */
  lemma OnlyPossibleOverloadPicked(c: CallSite, o: nat)
    requires o < |c.overloads|
    requires forall p, e :: 0 <= p < |c.overloads| && p != o ==> c.Matches(p, e) == No
    requires c.Matches(o, false) != Yes && c.Matches(o, true) != Yes
    requires c.Matches(o, false) == Maybe || c.Matches(o, true) == Maybe
    ensures PickFrom(c, 0, None) == Some(Candidate(o, c.Matches(o, true) == Maybe))
  {
    var n := |c.overloads|;
    ScanToExplicit(c, o);
    assert c.OverloadAt(n + o) == o;
    var pm := if c.Matches(o, false) == Maybe then Some(Candidate(o, false)) else None;
    var pm' := if c.Matches(o, true) == Maybe then Some(Candidate(o, true)) else pm;
    assert PickFrom(c, n + o, pm) == PickFrom(c, n + o + 1, pm');
    forall p | n + o < p < 2 * n
      ensures c.MatchAt(p) == No
    {
      assert c.OverloadAt(p) == p - n;
    }
    PickFromSkip(c, n + o + 1, 2 * n, pm');
  }

  /**
   * Two different overloads that might match, with no sure match scanned
   * before the second of them, make the call ambiguous: nothing is picked.
   */
  lemma TwoCandidatesNone(c: CallSite, p1: nat, p2: nat)
    requires p1 < p2 < c.Positions()
    requires c.OverloadAt(p1) != c.OverloadAt(p2)
    requires c.MatchAt(p1) != No && c.MatchAt(p2) != No
    requires forall p :: 0 <= p < p2 ==> c.MatchAt(p) != Yes
    ensures PickFrom(c, 0, None) == None
  {
    var n := |c.overloads|;
    PickFromSound(c, 0, None);
    var r := PickFrom(c, 0, None);
    if r.Some? {
      var o := r.value.overload;
      var e := r.value.isExplicit;
      if c.Matches(o, e) == Maybe {
        assert false;
      } else {
        var pos := if e then n + o else o;
        assert c.OverloadAt(pos) == o && (pos >= n) == e;
        assert c.MatchAt(pos) == Yes;
        OnlyOwnSlotBefore(c, r.value);
      }
    }
  }

  /** Before a sure match is picked, only the candidate's own implicit slot might match. */
  lemma OnlyOwnSlotBefore(c: CallSite, cand: Candidate)
    requires SoleCandidate(c, cand)
    ensures var pos := if cand.isExplicit then |c.overloads| + cand.overload else cand.overload;
      forall p :: 0 <= p < pos && c.MatchAt(p) != No ==> c.OverloadAt(p) == cand.overload
  {
  }

  /**
   * The meaning of `pickSingleOverloadForCall`: a picked overload is the sole
   * candidate; nothing is picked when no overload can match; the first
   * overload that surely matches implicitly, when every earlier one cannot
   * match, is picked without explicit conversion.
   */
  lemma PickSingleOverloadMeaning(c: CallSite)
    ensures var r := PickFrom(c, 0, None);
      && (r.Some? ==> SoleCandidate(c, r.value))
      && ((forall o, e :: 0 <= o < |c.overloads| ==> c.Matches(o, e) == No) ==> r == None)
      && (forall o :: 0 <= o < |c.overloads| && c.Matches(o, false) == Yes &&
                       (forall p :: 0 <= p < o ==> c.Matches(p, false) == No) ==>
            r == Some(Candidate(o, false)))
  {
    PickFromSound(c, 0, None);
    if forall o, e :: 0 <= o < |c.overloads| ==> c.Matches(o, e) == No {
      PickFromNone(c, 0);
    }
    forall o | 0 <= o < |c.overloads| && c.Matches(o, false) == Yes && (forall p :: 0 <= p < o ==> c.Matches(p, false) == No)
      ensures PickFrom(c, 0, None) == Some(Candidate(o, false))
    {
      PickFromFirstYes(c, 0, o);
    }
  }

  /** `converter.convert(overload.functionObj, argTypes, None)`, per overload: the output type, or None. */
  type CompileOracle = nat -> Option<PyType>

  /** The return type position `q` contributes: the declared one, or the compiled target's output type. */
  function Contribution(c: CallSite, compile: CompileOracle, q: nat): seq<PyType>
    requires q < c.Positions()
  {
    var o := c.OverloadAt(q);
    match c.overloads[o].returnType
    case Some(t) => [t]
    case None =>
      match compile(o)
      case Some(t) => [t]
      case None => []
  }

  /** The answer of `determinePossibleReturnTypes` from position `q` on. */
  function ReturnTypesFrom(c: CallSite, compile: CompileOracle, q: nat): seq<PyType>
    requires q <= c.Positions()
    decreases c.Positions() - q
  {
    if q == c.Positions() then []
    else
      match c.MatchAt(q)
      case No => ReturnTypesFrom(c, compile, q + 1)
      case Yes => Contribution(c, compile, q)
      case Maybe => Contribution(c, compile, q) + ReturnTypesFrom(c, compile, q + 1)
  }

  /** One position of the scan, seen from the accumulated prefix `acc`. */
  lemma ReturnTypesStep(c: CallSite, compile: CompileOracle, q: nat, acc: seq<PyType>)
    requires q < c.Positions()
    ensures c.MatchAt(q) == No ==> acc + ReturnTypesFrom(c, compile, q) == acc + ReturnTypesFrom(c, compile, q + 1)
    ensures c.MatchAt(q) == Yes ==> acc + ReturnTypesFrom(c, compile, q) == acc + Contribution(c, compile, q)
    ensures c.MatchAt(q) == Maybe ==>
      acc + ReturnTypesFrom(c, compile, q) == (acc + Contribution(c, compile, q)) + ReturnTypesFrom(c, compile, q + 1)
  {
    if c.MatchAt(q) == Maybe {
      assert ReturnTypesFrom(c, compile, q) == Contribution(c, compile, q) + ReturnTypesFrom(c, compile, q + 1);
    }
  }

  /** `determinePossibleReturnTypes(converter, func, argTypes)`. */
  method DeterminePossibleReturnTypes(compile: CompileOracle, overloads: seq<Overload>, argTypes: seq<ArgWrapper>,
                                      canConvert: ConvertibilityOracle) returns (returnTypes: seq<PyType>)
    ensures returnTypes == ReturnTypesFrom(CallSite(overloads, argTypes, canConvert), compile, 0)
  {
    ghost var c := CallSite(overloads, argTypes, canConvert);
    var n := |overloads|;
    returnTypes := [];
    // The implicit pass and then the explicit pass, as one scan over positions.
    var q := 0;
    while q < 2 * n
      invariant 0 <= q <= 2 * n
      invariant returnTypes + ReturnTypesFrom(c, compile, q) == ReturnTypesFrom(c, compile, 0)
    {
      var isExplicit := q >= n;
      var o := if isExplicit then q - n else q;
      var mightMatch := OverloadMatchesSignature(overloads[o], argTypes, canConvert, isExplicit);
      assert mightMatch == c.MatchAt(q);
      ReturnTypesStep(c, compile, q, returnTypes);
      if mightMatch != No {
        assert c.OverloadAt(q) == o;
        ghost var before := returnTypes;
        if overloads[o].returnType.Some? {
          returnTypes := returnTypes + [overloads[o].returnType.value];
        } else {
          var callTarget := compile(o);
          if callTarget.Some? {
            returnTypes := returnTypes + [callTarget.value];
          } else {
            returnTypes := returnTypes + [];
          }
        }
        assert returnTypes == before + Contribution(c, compile, q);
        if mightMatch == Yes {
          assert returnTypes == ReturnTypesFrom(c, compile, 0);
          return;
        }
      }
      assert returnTypes + ReturnTypesFrom(c, compile, q + 1) == ReturnTypesFrom(c, compile, 0);
      q := q + 1;
    }
    assert returnTypes + [] == returnTypes;
  }

  /** No scan position in `[q, p)` surely matches. */
  predicate NoYesBetween(c: CallSite, q: nat, p: nat)
    requires p <= c.Positions()
  {
    forall p' :: q <= p' < p ==> c.MatchAt(p') != Yes
  }

  /** Position `p` might match, contributes `t`, and is reached by the scan from `q`. */
  predicate ContributesFrom(c: CallSite, compile: CompileOracle, q: nat, p: nat, t: PyType) {
    && q <= p < c.Positions()
    && c.MatchAt(p) != No
    && t in Contribution(c, compile, p)
    && NoYesBetween(c, q, p)
  }

  /** Every possible return type comes from a position the scan reaches and that might match. */
  lemma {:induction false} ReturnTypeSource(c: CallSite, compile: CompileOracle, q: nat, t: PyType) returns (p: nat)
    requires q <= c.Positions()
    requires t in ReturnTypesFrom(c, compile, q)
    ensures ContributesFrom(c, compile, q, p, t)
    decreases c.Positions() - q
  {
    if c.MatchAt(q) != No && t in Contribution(c, compile, q) {
      p := q;
    } else {
      p := ReturnTypeSource(c, compile, q + 1, t);
    }
  }

  /** Every type contributed by a reached position that might match is a possible return type. */
  lemma {:induction false} ReturnTypeIncluded(c: CallSite, compile: CompileOracle, q: nat, p: nat, t: PyType)
    requires ContributesFrom(c, compile, q, p, t)
    ensures t in ReturnTypesFrom(c, compile, q)
    decreases p - q
  {
    if q < p {
      assert c.MatchAt(q) != Yes;
      ReturnTypeIncluded(c, compile, q + 1, p, t);
    }
  }

  /**
   * The possible return types are exactly the types contributed by the scan
   * positions that might match, up to and including the first that surely
   * matches.
   */
  lemma ReturnTypesMeaning(c: CallSite, compile: CompileOracle, t: PyType)
    ensures t in ReturnTypesFrom(c, compile, 0) <==> exists p :: ContributesFrom(c, compile, 0, p, t)
  {
    if t in ReturnTypesFrom(c, compile, 0) {
      var p := ReturnTypeSource(c, compile, 0, t);
    }
    if exists p :: ContributesFrom(c, compile, 0, p, t) {
      var p :| ContributesFrom(c, compile, 0, p, t);
      ReturnTypeIncluded(c, compile, 0, p, t);
    }
  }

  // ---------------------------------------------------------------------------
  // pickCallSignatureToImplement

  /** The signature an overload is specialised to: a name, a return type and typed arguments. */
  datatype CallSignature = CallSignature(name: string, returnType: PyType, args: seq<FunctionOverloadArg>)

  datatype SignatureError = SignatureMismatch

  /** An unfiltered argument takes the actual argument's type; a filtered one keeps its filter. */
  function SpecializeArg(a: FunctionOverloadArg, actual: ArgWrapper): FunctionOverloadArg {
    var argType := if a.typeFilter.None? then actual.typeRepresentation else a.typeFilter.value;
    FunctionOverloadArg(a.name, a.defaultValue, Some(argType), a.isStarArg, a.isKwarg)
  }

  /** The signature `pickCallSignatureToImplement` returns, or its signature-mismatch exception. */
  function CallSignatureFor(o: Overload, argTypes: seq<ArgWrapper>): (r: Result<CallSignature, SignatureError>)
    ensures r.Err? <==> |argTypes| != |o.args|
    ensures r.Ok? ==>
      && r.value.name == o.name
      && r.value.returnType == o.returnType.GetOr(ObjectType)
      && |r.value.args| == |o.args|
      && forall i :: 0 <= i < |o.args| ==>
           && r.value.args[i].name == o.args[i].name
           && r.value.args[i].defaultValue == o.args[i].defaultValue
           && r.value.args[i].isStarArg == o.args[i].isStarArg
           && r.value.args[i].isKwarg == o.args[i].isKwarg
           && r.value.args[i].typeFilter.Some?
           && (o.args[i].typeFilter.Some? ==> r.value.args[i].typeFilter == o.args[i].typeFilter)
           && (o.args[i].typeFilter.None? ==> r.value.args[i].typeFilter == Some(argTypes[i].typeRepresentation))
  {
    if |argTypes| != |o.args| then Err(SignatureMismatch)
    else Ok(CallSignature(o.name, o.returnType.GetOr(ObjectType),
                          seq(|o.args|, i requires 0 <= i < |o.args| => SpecializeArg(o.args[i], argTypes[i]))))
  }

  /** `pickCallSignatureToImplement(overload, argTypes)`. */
  method PickCallSignatureToImplement(o: Overload, argTypes: seq<ArgWrapper>) returns (r: Result<CallSignature, SignatureError>)
    ensures r == CallSignatureFor(o, argTypes)
  {
    if |argTypes| != |o.args| {
      return Err(SignatureMismatch);
    }
    var argTuples: seq<FunctionOverloadArg> := [];
    var i := 0;
    while i < |o.args|
      invariant 0 <= i <= |o.args|
      invariant argTuples == seq(i, j requires 0 <= j < i => SpecializeArg(o.args[j], argTypes[j]))
    {
      var arg := o.args[i];
      var argType := if arg.typeFilter.None? then argTypes[i].typeRepresentation else arg.typeFilter.value;
      argTuples := argTuples + [FunctionOverloadArg(arg.name, arg.defaultValue, Some(argType), arg.isStarArg, arg.isKwarg)];
      i := i + 1;
    }
    var returnType := if o.returnType.Some? then o.returnType.value else ObjectType;
    assert argTuples == seq(|o.args|, j requires 0 <= j < |o.args| => SpecializeArg(o.args[j], argTypes[j]));
    return Ok(CallSignature(o.name, returnType, argTuples));
  }

  /** A signature seen as an overload of its own. */
  function AsOverload(s: CallSignature): Overload {
    Overload(s.name, s.name, Some(s.returnType), s.args)
  }

  /** Specialising is idempotent: a specialised signature specialises to itself for the same arguments. */
  lemma SpecializationIdempotent(o: Overload, argTypes: seq<ArgWrapper>)
    requires CallSignatureFor(o, argTypes).Ok?
    ensures CallSignatureFor(AsOverload(CallSignatureFor(o, argTypes).value), argTypes) == CallSignatureFor(o, argTypes)
  {
    var s := CallSignatureFor(o, argTypes).value;
    var s2 := CallSignatureFor(AsOverload(s), argTypes).value;
    assert s2.args == s.args;
  }

  // ---------------------------------------------------------------------------
  // compileCall / convert_call

  /** A typed call target: one compiled overload, or a dispatcher over all of them. */
  datatype CallTarget = OverloadTarget(overload: nat, outputType: PyType) | DispatchTarget(returnType: PyType)

  /** `OneOfWrapper.mergeTypes`: the union of the possible return types, or None. */
  type MergeOracle = seq<PyType> -> Option<PyType>

  /** The target `compileCall(converter, None, argTypes, callback)` returns. */
  function CompileCallSpec(c: CallSite, compile: CompileOracle, mergeTypes: MergeOracle): Option<CallTarget> {
    match PickFrom(c, 0, None)
    case Some(cand) =>
      (match compile(cand.overload)
       case Some(t) => Some(OverloadTarget(cand.overload, t))
       case None => None)
    case None =>
      match mergeTypes(ReturnTypesFrom(c, compile, 0))
      case Some(t) => Some(DispatchTarget(t))
      case None => None
  }

  /** `compileCall` with no requested return type. */
  method CompileCall(compile: CompileOracle, overloads: seq<Overload>, argTypes: seq<ArgWrapper>,
                     canConvert: ConvertibilityOracle, mergeTypes: MergeOracle) returns (target: Option<CallTarget>)
    ensures target == CompileCallSpec(CallSite(overloads, argTypes, canConvert), compile, mergeTypes)
    ensures target.Some? && target.value.OverloadTarget? ==>
      var c := CallSite(overloads, argTypes, canConvert);
      && SoleCandidate(c, PickFrom(c, 0, None).value)
      && target.value.overload == PickFrom(c, 0, None).value.overload
      && compile(target.value.overload) == Some(target.value.outputType)
    ensures target.Some? && target.value.DispatchTarget? ==>
      var c := CallSite(overloads, argTypes, canConvert);
      PickFrom(c, 0, None).None? && mergeTypes(ReturnTypesFrom(c, compile, 0)) == Some(target.value.returnType)
  {
    PickSingleOverloadMeaning(CallSite(overloads, argTypes, canConvert));
    var overloadAndIsExplicit := PickSingleOverloadForCall(overloads, argTypes, canConvert);
    if overloadAndIsExplicit.Some? {
      var o := overloadAndIsExplicit.value.overload;
      var callTarget := compile(o);
      if callTarget.Some? {
        return Some(OverloadTarget(o, callTarget.value));
      }
      return None;
    }
    var possibleTypes := DeterminePossibleReturnTypes(compile, overloads, argTypes, canConvert);
    var returnType := mergeTypes(possibleTypes);
    if returnType.None? {
      return None;
    }
    return Some(DispatchTarget(returnType.value));
  }

  /** What `convert_call` produces. */
  datatype CallOutcome =
    | InterpretedCall(returnType: PyType)
    | InterpretedCallNoValue
    | TypedCall(target: CallTarget)
    | DispatchTypeError

  datatype CallError = KeywordArgumentsUnsupported

  /**
   * Whether calling an overload's function object through the interpreter,
   * `context.constantPyObject(functionObj).convert_call(args, kwargs)`,
   * yields an expression (false when it yields None, i.e. control flow does
   * not return).
   */
  type InterpretOracle = (Overload, seq<ArgWrapper>) -> bool

  /**
   * `convert_call(context, left, args, kwargs)`: keyword arguments are refused;
   * a single overload marked not-to-compile is called through the interpreter
   * and, when that yields a value, converted to its declared return type (or
   * `object`); otherwise the compiled target is called, or a TypeError raised
   * when there is none.
   */
  method ConvertCall(overloads: seq<Overload>, firstIsNoCompile: bool, argTypes: seq<ArgWrapper>,
                     kwargs: seq<(string, ArgWrapper)>, canConvert: ConvertibilityOracle,
                     compile: CompileOracle, mergeTypes: MergeOracle, interpret: InterpretOracle)
    returns (r: Result<CallOutcome, CallError>)
    ensures r.Err? <==> |kwargs| > 0
    ensures r.Ok? && |overloads| == 1 && firstIsNoCompile ==>
      r.value == if interpret(overloads[0], argTypes)
                 then InterpretedCall(overloads[0].returnType.GetOr(ObjectType))
                 else InterpretedCallNoValue
    ensures r.Ok? && !(|overloads| == 1 && firstIsNoCompile) ==>
      var target := CompileCallSpec(CallSite(overloads, argTypes, canConvert), compile, mergeTypes);
      r.value == if target.Some? then TypedCall(target.value) else DispatchTypeError
  {
    if |kwargs| > 0 {
      return Err(KeywordArgumentsUnsupported);
    }
    if |overloads| == 1 && firstIsNoCompile {
      var returned := interpret(overloads[0], argTypes);
      if !returned {
        return Ok(InterpretedCallNoValue);
      }
      var returnType := if overloads[0].returnType.Some? then overloads[0].returnType.value else ObjectType;
      return Ok(InterpretedCall(returnType));
    }
    var callTarget := CompileCall(compile, overloads, argTypes, canConvert, mergeTypes);
    if callTarget.None? {
      return Ok(DispatchTypeError);
    }
    return Ok(TypedCall(callTarget.value));
  }
}
