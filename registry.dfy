/** The process-wide configuration registry of BaseConfig: two slots, the
    current instance and the class to rebuild on reload, that start empty, are
    filled together by `set_global`, and are never emptied again as long as
    `set_global` is only given configuration instances. */
module Registry {
  import opened Wrappers
  import opened Configs

  /** Why building a configuration instance failed (pydantic's ValidationError). */
  datatype BuildError = ValidationError(message: string)

  datatype RegistryError =
    | NotSet                     // AssertionError from global_config
    | ReloadWithoutInit          // RuntimeError from reload
    | BuildFailed(cause: BuildError)  // raised by the constructor during reload

  /** The two class-level slots. */
  datatype State = State(current: Option<BaseConfig>, reloadType: Option<ConfigType>)

  /** Both slots empty, as at import time. */
  const Initial: State := State(None, None)

  /** The slots are filled together, and the remembered class is that of the current instance. */
  predicate Inv(s: State) {
    (s.current.Some? <==> s.reloadType.Some?) &&
    (s.current.Some? ==> s.reloadType.value == s.current.value.configType)
  }

  /** One call on the registry. For `ReloadOp`, `built` is the instance the
      constructor of the remembered class produced, or `None` if it raised. */
  datatype Op = GetOp | SetOp(config: BaseConfig) | ReloadOp(built: Option<BaseConfig>)

  /** What `global_config` returns in state `s`. */
  function Get(s: State): Result<BaseConfig, RegistryError> {
    match s.current
    case None => Failure(NotSet)
    case Some(c) => Success(c)
  }

  /** The slots after one call. */
  function Step(s: State, op: Op): State {
    match op
    case GetOp => s
    case SetOp(c) => State(Some(c), Some(c.configType))
    case ReloadOp(built) =>
      if s.reloadType.None? || built.None? then s
      else State(Some(built.value), Some(built.value.configType))
  }

  /** The slots after a sequence of calls. */
  function Run(s: State, ops: seq<Op>): State
    decreases |ops|
  {
    if ops == [] then s else Run(Step(s, ops[0]), ops[1..])
  }

  /** `ops` neither sets nor successfully reloads. */
  predicate ReadOnly(ops: seq<Op>) {
    forall i :: 0 <= i < |ops| ==> ops[i] == GetOp || ops[i] == ReloadOp(None)
  }

  /** No call ever breaks the invariant. */
  lemma StepPreservesInv(s: State, op: Op)
    requires Inv(s)
    ensures Inv(Step(s, op))
  {
  }

  /** From the initial state, every sequence of calls keeps the invariant. */
  lemma {:induction false} RunPreservesInv(s: State, ops: seq<Op>)
    requires Inv(s)
    ensures Inv(Run(s, ops))
    decreases |ops|
  {
    if ops != [] {
      StepPreservesInv(s, ops[0]);
      RunPreservesInv(Step(s, ops[0]), ops[1..]);
    }
  }

  /** Once filled, the slots stay filled: no call clears them. */
  lemma {:induction false} NeverCleared(s: State, ops: seq<Op>)
    requires s.current.Some? && s.reloadType.Some?
    ensures Run(s, ops).current.Some? && Run(s, ops).reloadType.Some?
    decreases |ops|
  {
    if ops != [] {
      NeverCleared(Step(s, ops[0]), ops[1..]);
    }
  }

  /** Running `a` then `b` is running `a + b`. */
  lemma {:induction false} RunAppend(s: State, a: seq<Op>, b: seq<Op>)
    ensures Run(s, a + b) == Run(Run(s, a), b)
    decreases |a|
  {
    if a != [] {
      assert (a + b)[0] == a[0] && (a + b)[1..] == a[1..] + b;
      RunAppend(Step(s, a[0]), a[1..], b);
    } else {
      assert a + b == b;
    }
  }

  /** Calls that neither set nor successfully reload leave the slots alone. */
  lemma {:induction false} ReadOnlyRun(s: State, ops: seq<Op>)
    requires ReadOnly(ops)
    ensures Run(s, ops) == s
    decreases |ops|
  {
    if ops != [] {
      assert ops[0] == GetOp || ops[0] == ReloadOp(None);
      ReadOnlyRun(s, ops[1..]);
    }
  }

  /** The last `set_global` wins: until the next set or successful reload,
      `global_config` returns that very object and the remembered class is its class. */
  lemma LastSetWins(s: State, ops: seq<Op>, c: BaseConfig, tail: seq<Op>)
    requires ReadOnly(tail)
    ensures Get(Run(s, ops + [SetOp(c)] + tail)) == Success(c)
    ensures Run(s, ops + [SetOp(c)] + tail).reloadType == Some(c.configType)
  {
    RunAppend(s, ops + [SetOp(c)], tail);
    RunAppend(s, ops, [SetOp(c)]);
    ReadOnlyRun(Run(s, ops + [SetOp(c)]), tail);
  }

  /** From a state satisfying the invariant, the current slot ends up filled
      exactly when it was filled already or some call was a `set_global`. */
  lemma {:induction false} FilledIffSet(s: State, ops: seq<Op>)
    requires Inv(s)
    ensures Run(s, ops).current.Some? <==>
              s.current.Some? || exists i :: 0 <= i < |ops| && ops[i].SetOp?
    decreases |ops|
  {
    if ops != [] {
      var next := Step(s, ops[0]);
      FilledIffSet(next, ops[1..]);
      assert forall i :: 1 <= i < |ops| ==> ops[i] == ops[1..][i - 1];
      if exists i :: 0 <= i < |ops[1..]| && ops[1..][i].SetOp? {
        var i :| 0 <= i < |ops[1..]| && ops[1..][i].SetOp?;
        assert ops[i + 1].SetOp?;
      }
    }
  }

  /** Starting from import time, `global_config` fails, with NotSet, exactly
      until the first `set_global`, and until then no call (a reload included)
      fills either slot. (`ConfigRegistry.Reload` states the separate
      ReloadWithoutInit error a reload raises meanwhile.) */
  lemma FailsUntilFirstSet(ops: seq<Op>)
    ensures Get(Run(Initial, ops)).Failure? <==> forall i :: 0 <= i < |ops| ==> !ops[i].SetOp?
    ensures Get(Run(Initial, ops)).Failure? ==> Get(Run(Initial, ops)).error == NotSet
    ensures (forall i :: 0 <= i < |ops| ==> !ops[i].SetOp?) ==> Run(Initial, ops) == Initial
  {
    FilledIffSet(Initial, ops);
    RunPreservesInv(Initial, ops);
    if forall i :: 0 <= i < |ops| ==> !ops[i].SetOp? {
      UnsetStaysUnset(ops);
    }
  }

  /** Before any `set_global`, nothing changes the slots. */
  lemma {:induction false} UnsetStaysUnset(ops: seq<Op>)
    requires forall i :: 0 <= i < |ops| ==> !ops[i].SetOp?
    ensures Run(Initial, ops) == Initial
    decreases |ops|
  {
    if ops != [] {
      assert !ops[0].SetOp?;
      assert forall i :: 0 <= i < |ops[1..]| ==> ops[1..][i] == ops[i + 1];
      UnsetStaysUnset(ops[1..]);
    }
  }

  /** A successful reload swaps in the new instance and keeps the remembered
      class; a failed one changes nothing. */
  lemma ReloadKeepsClass(s: State, built: Option<BaseConfig>)
    requires Inv(s) && s.reloadType.Some?
    requires built.Some? ==> built.value.configType == s.reloadType.value
    ensures Step(s, ReloadOp(built)).reloadType == s.reloadType
    ensures Get(Step(s, ReloadOp(built))) == if built.Some? then Success(built.value) else Get(s)
  {
  }

  /** The registry itself: the two class-level slots of BaseConfig. */
  class ConfigRegistry {
    var current: BaseConfig?
    var reloadType: Option<ConfigType>

    /** The class invariant: the slots are filled together, with the class of the current instance. */
    ghost predicate Valid()
      reads this
    {
      Inv(Slots())
    }

    /** The slots as a value. */
    function Slots(): State
      reads this
    {
      State(if current == null then None else Some(current), reloadType)
    }

    constructor ()
      ensures Slots() == Initial && Valid()
    {
      current := null;
      reloadType := None;
    }

    /** `global_config`: the current instance, or NotSet (an AssertionError) while unset. */
    method GlobalConfig() returns (r: Result<BaseConfig, RegistryError>)
      ensures r == Get(Slots())
      ensures r.Failure? <==> current == null
      ensures r.Failure? ==> r.error == NotSet
      ensures r.Success? ==> r.value == current
    {
      if current == null {
        r := Failure(NotSet);
      } else {
        r := Success(current);
      }
    }

    /** `set_global`: runs the hook on `config`, then fills both slots. */
    method SetGlobal(config: BaseConfig)
      modifies this, config.elasticApm
      ensures Slots() == Step(old(Slots()), SetOp(config))
      ensures current == config && reloadType == Some(config.configType)
      ensures Valid()
      ensures config.View() == Customized(old(config.View()))
    {
      config.Customize();
      current := config;
      reloadType := Some(config.configType);
    }

    /** `reload`: builds a new instance of the remembered class with `build`
        (the constructor, reading every settings source), then sets it as
        `set_global` does. Nothing is stored unless the build succeeds. */
    method Reload(build: ConfigType -> Result<Settings, BuildError>) returns (outcome: Outcome<RegistryError>)
      modifies this
      ensures old(reloadType).None? ==> outcome == Fail(ReloadWithoutInit) && unchanged(this)
      ensures old(reloadType).Some? && build(old(reloadType).value).Failure? ==>
                outcome == Fail(BuildFailed(build(old(reloadType).value).error)) && unchanged(this)
      ensures old(reloadType).Some? && build(old(reloadType).value).Success? ==>
                outcome == Pass && current != null && fresh(current) && fresh(current.elasticApm) &&
                current.configType == old(reloadType).value &&
                current.View() == Customized(build(old(reloadType).value).value)
      ensures reloadType == old(reloadType)
      ensures old(Valid()) ==> Valid()
      ensures Slots() == Step(old(Slots()), ReloadOp(if outcome == Pass then Some(current) else None))
      ensures old(current) != null ==> old(current).View() == old(current.View())
    {
      if reloadType.None? {
        return Fail(ReloadWithoutInit);
      }
      var t := reloadType.value;
      var built := build(t);
      if built.Failure? {
        return Fail(BuildFailed(built.error));
      }
      var instance := new BaseConfig(t, built.value);
      SetGlobal(instance);
      outcome := Pass;
    }
  }
}
