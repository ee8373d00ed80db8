/**
 * Properties of `run_agent`'s loop as a whole: what one iteration may add,
 * which calls reach a tool, when the loop can stop, and what every run keeps.
 */
module AgentProperties {
  import opened Text
  import opened Json
  import opened Registry
  import opened AgentMemory
  import opened Intelligence
  import opened Agent

  /** `input(...).lower() != 'y'` lets exactly the answers "y" and "Y" through. */
  lemma ConfirmationAnswers(x: string)
    ensures Lower(x) == "y" <==> x == "y" || x == "Y"
  {
    if Lower(x) == "y" {
      assert |x| == 1 && LowerChar(x[0]) == 'y';
      assert x == [x[0]];
    }
    if x == "Y" {
      assert Lower(x)[0] == LowerChar('Y') == 'y';
    }
    if x == "y" {
      assert Lower(x)[0] == 'y';
    }
  }

  /** A call whose tool is registered and whose arguments match its signature. */
  predicate Conforms(c: Call) {
    && IsRegistered(c.0) && c.0 != "finish"
    && (forall k :: 0 <= k < |Params(c.0)| ==> !IsMissing(Params(c.0)[k], c.1))
    && (forall k :: 0 <= k < |c.1| ==> c.1[k].0 in ParamNames(Params(c.0)))
  }

  /**
   * What the loop keeps about what it runs: every action taken passed the
   * validator, is not `finish` and has arguments, and every call made conforms.
   */
  predicate Vetted(st: Loop) {
    && (forall a :: a in st.taken ==> Criticize(a).None? && ToolName(a) != "finish" && a.args.Some?)
    && (forall c :: c in st.calls ==> Conforms(c))
  }

  /** The recovery call conforms to `execute_command`'s signature. */
  lemma PwdCallConforms()
    ensures Conforms(PwdCall)
  {
    assert Params(PwdCall.0) == [Required("command")];
    assert ParamNames(Params(PwdCall.0)) == ["command"];
    assert PwdCall.1[0].0 == "command";
    assert HasKey(PwdCall.1, "command");
  }

  /** The call built from a validated, non-`finish` action with arguments conforms. */
  lemma ValidatedCallConforms(a: Action)
    requires Criticize(a).None? && ToolName(a) != "finish" && a.args.Some?
    ensures Conforms((ToolName(a), a.args.value))
  {
    CriticizeAcceptsExactly(a);
  }

  /** The policy check adds the record of the step or stops with its reason; nothing else changes. */
  lemma SettleFacts(env: Env, i: nat, st: Loop, a: Action, obs: string)
    ensures var r := Settle(env, i, st, a, obs);
      && r.st.taken == st.taken && r.st.calls == st.calls && r.st.pos == st.pos
      && st.history <= r.st.history
      && (r.Next? ==> |r.st.history| == |st.history| + 2)
      && (r.Halt? ==> r.st == st && r.exit.PolicyStop?)
    ensures var r := Settle(env, i, st, a, obs);
      r.Halt? && i < MaxIterations ==> r.exit.reason != "Maximum iterations reached"
    ensures var r := Settle(env, i, st, a, obs);
      r.Halt? && i <= 3 ==> r.exit.reason == "Task completed - README.md has been written"
  {
    if i < MaxIterations {
      BelowCapNeverCapReason(obs, i, MaxIterations);
    }
    ShouldContinueStopsExactly(obs, i, MaxIterations);
  }

  /**
   * Execution records the action, makes its call, and makes the `pwd` call
   * after it exactly when the first observation names a missing file.  The
   * recovery adds the action and the recovery note; going on adds the action
   * and its observation, so two messages, or four after a recovery.
   */
  lemma ExecuteFacts(env: Env, i: nat, st: Loop, a: Action, args: Fields)
    ensures var r := Execute(env, i, st, a, args);
      var c := (ToolName(a), args);
      var recovered := NamesMissingFile(ExecuteTool(env.invoke(st.calls, c), c.0));
      && r.st.taken == st.taken + [a] && r.st.pos == st.pos
      && st.history <= r.st.history
      && (r.Next? ==> |r.st.history| == |st.history| + (if recovered then 4 else 2))
      && (r.Halt? ==> |r.st.history| == |st.history| + (if recovered then 2 else 0))
      && (recovered ==> r.st.history[|st.history|] == Message("assistant", env.dump(a)))
      && (r.Halt? ==> r.exit.PolicyStop?)
      && r.st.calls == st.calls + [c] + (if recovered then [PwdCall] else [])
    ensures var r := Execute(env, i, st, a, args);
      r.Halt? && i < MaxIterations ==> r.exit.reason != "Maximum iterations reached"
    ensures var r := Execute(env, i, st, a, args);
      r.Halt? && i <= 3 ==> r.exit.reason == "Task completed - README.md has been written"
  {
    var c := (ToolName(a), args);
    var obs := ExecuteTool(env.invoke(st.calls, c), c.0);
    var st1 := st.(taken := st.taken + [a], calls := st.calls + [c]);
    if NamesMissingFile(obs) {
      var st2 := st1.(history := st1.history + [Message("assistant", env.dump(a)), Message("user", RecoveryNote(obs))]);
      var obs2 := ExecuteTool(env.invoke(st2.calls, PwdCall), "execute_command");
      SettleFacts(env, i, st2.(calls := st2.calls + [PwdCall]), PwdAction, obs2);
    } else {
      SettleFacts(env, i, st1, a, obs);
    }
  }

  /**
   * The action `a` taken at iteration `i`: it passed the validator, is not
   * `finish`, has arguments, and is auto-executed or was confirmed; its call
   * is made, followed by `pwd` exactly when its observation names a missing file.
   */
  predicate TookAction(env: Env, i: nat, st: Loop, a: Action, r: Loop) {
    && r.taken == st.taken + [a]
    && Criticize(a).None? && ToolName(a) != "finish" && a.args.Some?
    && (AutoExecute(ToolName(a)) || Lower(env.answer(i)) == "y")
    && var c := (ToolName(a), a.args.value);
       r.calls == st.calls + [c] + (if NamesMissingFile(ExecuteTool(env.invoke(st.calls, c), c.0)) then [PwdCall] else [])
  }

  /**
   * Handling a tagged action keeps the script position, only appends to the
   * conversation (an invalid action adds exactly itself and the criticism,
   * and makes no call), never gives the cap's exits below the cap, and stops
   * on the policy in the first four iterations only for a README write.
   */
  lemma HandleFacts(env: Env, i: nat, st: Loop, a: Action)
    ensures var r := Handle(env, i, st, a);
      && r.st.pos == st.pos && st.history <= r.st.history
      && (r.Next? ==> |r.st.history| == |st.history| + 2 || |r.st.history| == |st.history| + 4)
      && (Criticize(a).Some? ==>
            r == Next(st.(history := st.history + [Message("assistant", env.dump(a)),
                                                   Message("user", InvalidCallNote(Criticize(a).value))])))
      && (r.Halt? && r.exit.PolicyStop? && i < MaxIterations ==> r.exit.reason != "Maximum iterations reached")
      && (r.Halt? && r.exit.PolicyStop? && i <= 3 ==> r.exit.reason == "Task completed - README.md has been written")
      && (r.Halt? ==> r.exit != CapReached)
  {
    if Criticize(a).None? && ToolName(a) != "finish" && (AutoExecute(ToolName(a)) || Lower(env.answer(i)) == "y") && a.args.Some? {
      ExecuteFacts(env, i, st, a, a.args.value);
    }
  }

  /** Handling a tagged action either leaves the actions and calls alone or takes it. */
  lemma HandleTakes(env: Env, i: nat, st: Loop, a: Action)
    ensures var r := Handle(env, i, st, a).st;
      (r.taken == st.taken && r.calls == st.calls) || TookAction(env, i, st, a, r)
  {
    if Criticize(a).None? && ToolName(a) != "finish" && (AutoExecute(ToolName(a)) || Lower(env.answer(i)) == "y") && a.args.Some? {
      ExecuteFacts(env, i, st, a, a.args.value);
    }
  }

  /** Handling a tagged action keeps `Vetted`. */
  lemma HandleKeepsVetted(env: Env, i: nat, st: Loop, a: Action)
    requires Vetted(st)
    ensures Vetted(Handle(env, i, st, a).st)
  {
    HandleTakes(env, i, st, a);
    var r := Handle(env, i, st, a).st;
    if TookAction(env, i, st, a, r) {
      TookKeepsVetted(env, i, st, a, r);
    }
  }

  /** Taking a validated action keeps `Vetted`. */
  lemma TookKeepsVetted(env: Env, i: nat, st: Loop, a: Action, r: Loop)
    requires Vetted(st) && TookAction(env, i, st, a, r)
    ensures Vetted(r)
  {
    ValidatedCallConforms(a);
    PwdCallConforms();
    VettedExtend(st, r, a, r.calls[|st.calls|..]);
  }

  /** Appending a validated action and conforming calls keeps `Vetted`. */
  lemma VettedExtend(st: Loop, r: Loop, a: Action, cs: seq<Call>)
    requires Vetted(st)
    requires Criticize(a).None? && ToolName(a) != "finish" && a.args.Some?
    requires forall c :: c in cs ==> Conforms(c)
    requires r.taken == st.taken + [a] && r.calls == st.calls + cs
    ensures Vetted(r)
  {
  }

  /** The calls made while handling a tagged action, as `StepConfirmsCalls` states them. */
  lemma HandleConfirmsCalls(env: Env, i: nat, st: Loop, a: Action)
    ensures var r := Handle(env, i, st, a).st;
      && st.calls <= r.calls && |r.calls| <= |st.calls| + 2
      && forall c :: c in r.calls[|st.calls|..] ==>
           c == PwdCall || AutoExecute(c.0) || env.answer(i) == "y" || env.answer(i) == "Y"
    ensures var r := Handle(env, i, st, a).st;
      |r.calls| == |st.calls| + 2 ==>
        var c := r.calls[|st.calls|];
        && r.calls[|st.calls| + 1] == PwdCall
        && NamesMissingFile(ExecuteTool(env.invoke(st.calls, c), c.0))
  {
    ConfirmationAnswers(env.answer(i));
    HandleTakes(env, i, st, a);
  }

  /** The state after fetching, and the tagged action handled, when there is one. */
  lemma StepCases(env: Env, i: nat, st: Loop)
    ensures var f := Fetch(env.replies, st.history, st.pos);
      var st1 := st.(history := f.history, pos := f.pos);
      && st.history <= f.history && st.pos <= f.pos
      && (st.pos <= |env.replies| ==> f.pos <= |env.replies|)
      && (f.action.None? || IsEmpty(f.action.value) ==> Step(env, i, st) == Halt(NoAction, st1))
      && (f.action.Some? && !IsEmpty(f.action.value) ==>
            st.pos < f.pos && Step(env, i, st) == Handle(env, i, st1, Tag(f.action.value, env.goal, i)))
  {
  }

  /**
   * One iteration only appends to the conversation, the actions taken and the
   * calls made, never moves back in the script, and one that goes on has
   * consumed a reply and added to the conversation.
   */
  lemma StepOnlyAppends(env: Env, i: nat, st: Loop)
    ensures var r := Step(env, i, st);
      && st.history <= r.st.history && st.taken <= r.st.taken && st.calls <= r.st.calls
      && st.pos <= r.st.pos && (st.pos <= |env.replies| ==> r.st.pos <= |env.replies|)
    ensures var r := Step(env, i, st);
      r.Next? ==> st.pos < r.st.pos && |st.history| < |r.st.history|
  {
    StepCases(env, i, st);
    var f := Fetch(env.replies, st.history, st.pos);
    if f.action.Some? && !IsEmpty(f.action.value) {
      var st1 := st.(history := f.history, pos := f.pos);
      var a := Tag(f.action.value, env.goal, i);
      HandleFacts(env, i, st1, a);
      HandleTakes(env, i, st1, a);
    }
  }

  /** One iteration keeps `Vetted`. */
  lemma StepKeepsVetted(env: Env, i: nat, st: Loop)
    requires Vetted(st)
    ensures Vetted(Step(env, i, st).st)
  {
    StepCases(env, i, st);
    var f := Fetch(env.replies, st.history, st.pos);
    if f.action.Some? && !IsEmpty(f.action.value) {
      HandleKeepsVetted(env, i, st.(history := f.history, pos := f.pos), Tag(f.action.value, env.goal, i));
    }
  }

  /**
   * Confirmation: every call one iteration makes is the recovery `pwd`, an
   * auto-executed tool, or was confirmed with "y" or "Y" at that iteration;
   * at most two calls are made, and a second one is the `pwd` that follows
   * a missing-file observation of the first.
   */
  lemma StepConfirmsCalls(env: Env, i: nat, st: Loop)
    ensures var r := Step(env, i, st).st;
      && st.calls <= r.calls && |r.calls| <= |st.calls| + 2
      && forall c :: c in r.calls[|st.calls|..] ==>
           c == PwdCall || AutoExecute(c.0) || env.answer(i) == "y" || env.answer(i) == "Y"
    ensures var r := Step(env, i, st).st;
      |r.calls| == |st.calls| + 2 ==>
        var c := r.calls[|st.calls|];
        && r.calls[|st.calls| + 1] == PwdCall
        && NamesMissingFile(ExecuteTool(env.invoke(st.calls, c), c.0))
  {
    StepCases(env, i, st);
    var f := Fetch(env.replies, st.history, st.pos);
    if f.action.Some? && !IsEmpty(f.action.value) {
      HandleConfirmsCalls(env, i, st.(history := f.history, pos := f.pos), Tag(f.action.value, env.goal, i));
    }
  }

  /**
   * Below the cap an iteration never halts with the cap's exit nor with the
   * cap's stop reason, and in the first four iterations only a README write
   * stops the loop.
   */
  lemma StepExits(env: Env, i: nat, st: Loop)
    requires i < MaxIterations
    ensures var r := Step(env, i, st);
      r.Halt? ==> r.exit != CapReached && r.exit != PolicyStop("Maximum iterations reached")
    ensures var r := Step(env, i, st);
      r.Halt? && r.exit.PolicyStop? && i <= 3 ==> r.exit.reason == "Task completed - README.md has been written"
  {
    StepCases(env, i, st);
    var f := Fetch(env.replies, st.history, st.pos);
    if f.action.Some? && !IsEmpty(f.action.value) {
      HandleFacts(env, i, st.(history := f.history, pos := f.pos), Tag(f.action.value, env.goal, i));
    }
  }

  /** What an iteration keeps between two states: each record only grows, the script position too. */
  predicate Extends(st: Loop, st': Loop) {
    st.history <= st'.history && st.taken <= st'.taken && st.calls <= st'.calls && st.pos <= st'.pos
  }

  /**
   * A loop whose iterations only extend the state, never pass reply `n`, and
   * consume a reply whenever they go on, only extends the state, stays within
   * the script, and consumes a reply per iteration when it reaches the cap.
   */
  lemma {:induction false} DriveOnlyAppends(step: (nat, Loop) -> StepResult, n: nat, i: nat, st: Loop)
    requires forall j: nat, s: Loop :: Extends(s, step(j, s).st)
    requires forall j: nat, s: Loop :: s.pos <= n ==> step(j, s).st.pos <= n
    requires forall j: nat, s: Loop :: step(j, s).Next? ==> s.pos < step(j, s).st.pos
    requires forall j: nat, s: Loop :: j < MaxIterations && step(j, s).Halt? ==> step(j, s).exit != CapReached
    requires st.pos <= n
    ensures var o := Drive(step, i, st); Extends(st, o.st) && o.st.pos <= n
    ensures var o := Drive(step, i, st);
      o.exit == CapReached && i <= MaxIterations ==> st.pos + (MaxIterations - i) <= o.st.pos
    decreases MaxIterations - i
  {
    if i < MaxIterations {
      var r := step(i, st);
      if r.Next? {
        DriveOnlyAppends(step, n, i + 1, r.st);
      }
    }
  }

  /** A loop whose iterations keep `Vetted` keeps it. */
  lemma {:induction false} DriveKeepsVetted(step: (nat, Loop) -> StepResult, i: nat, st: Loop)
    requires forall j: nat, s: Loop :: Vetted(s) ==> Vetted(step(j, s).st)
    requires Vetted(st)
    ensures Vetted(Drive(step, i, st).st)
    decreases MaxIterations - i
  {
    if i < MaxIterations {
      var r := step(i, st);
      if r.Next? {
        DriveKeepsVetted(step, i + 1, r.st);
      }
    }
  }

  /** A loop whose iterations below the cap never stop with the cap's reason never ends with it. */
  lemma {:induction false} DriveNoCapStop(step: (nat, Loop) -> StepResult, i: nat, st: Loop)
    requires forall j: nat, s: Loop :: j < MaxIterations && step(j, s).Halt? ==>
      step(j, s).exit != PolicyStop("Maximum iterations reached")
    ensures Drive(step, i, st).exit != PolicyStop("Maximum iterations reached")
    decreases MaxIterations - i
  {
    if i < MaxIterations {
      var r := step(i, st);
      if r.Next? {
        DriveNoCapStop(step, i + 1, r.st);
      }
    }
  }

  /**
   * A whole run: the system prompt and the goal stay the first two messages,
   * every action taken was validated, every call made conforms, the run never
   * reports the cap as a policy stop, and reaching the cap takes at least one
   * decodable reply per iteration.
   */
  lemma RunKeeps(env: Env)
    ensures Seed(env).history <= Run(env).st.history
    ensures Vetted(Run(env).st)
    ensures Run(env).exit != PolicyStop("Maximum iterations reached")
    ensures Run(env).exit == CapReached ==> MaxIterations <= |env.replies|
  {
    var step := (j: nat, s: Loop) => Step(env, j, s);
    assert Run(env) == Drive(step, 0, Seed(env));
    forall j: nat, s: Loop
      ensures Extends(s, step(j, s).st)
      ensures s.pos <= |env.replies| ==> step(j, s).st.pos <= |env.replies|
      ensures step(j, s).Next? ==> s.pos < step(j, s).st.pos
    {
      StepOnlyAppends(env, j, s);
    }
    forall j: nat, s: Loop | Vetted(s)
      ensures Vetted(step(j, s).st)
    {
      StepKeepsVetted(env, j, s);
    }
    forall j: nat, s: Loop | j < MaxIterations && step(j, s).Halt?
      ensures step(j, s).exit != PolicyStop("Maximum iterations reached") && step(j, s).exit != CapReached
    {
      StepExits(env, j, s);
    }
    DriveOnlyAppends(step, |env.replies|, 0, Seed(env));
    DriveKeepsVetted(step, 0, Seed(env));
    DriveNoCapStop(step, 0, Seed(env));
  }

}
