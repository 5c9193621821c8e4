/** The hook runner of the extended argument parser (`run_hooks` and
    `parse_args_and_run_hooks`): after a successful parse, every hook of the
    "config" category whose name does not start with "test_" is called with
    the parsed result, in registration order. What a hook does is its own
    business; the model records each call in order, and whether a hook
    raises is part of its description, since a raise propagates and ends
    the run. */
module HookRunner {
  import opened CmdTypes

  /** A registered hook: its `__name__`, and whether calling it raises. */
  datatype Hook = Hook(name: string, raises: bool)

  /** One call `hook(parsed_args)`. */
  datatype Invocation<N> = Invocation(hook: Hook, parsed: N)

  /** How `parse_args_and_run_hooks` ends: it returns the parsed result, or
      the exception of the named hook propagates out of it. */
  datatype Outcome<N> = Returned(parsed: N) | Propagated(hookName: string)

  const TestPrefix: string := "test_"

  /** The hook's name marks it as test-only. */
  predicate IsTestHook(name: string)
  {
    |name| >= |TestPrefix| && name[..|TestPrefix|] == TestPrefix
  }

  /** The hooks the runner would call if none raised: the registered ones
      without the test-only ones, in registration order. */
  function ProductionHooks(hooks: seq<Hook>): seq<Hook>
  {
    if hooks == [] then []
    else if IsTestHook(hooks[0].name) then ProductionHooks(hooks[1..])
    else [hooks[0]] + ProductionHooks(hooks[1..])
  }

  /** The hooks the runner does call: the production hooks up to and
      including the first one that raises. */
  function Invoked(hooks: seq<Hook>): seq<Hook>
  {
    if hooks == [] then []
    else if IsTestHook(hooks[0].name) then Invoked(hooks[1..])
    else if hooks[0].raises then [hooks[0]]
    else [hooks[0]] + Invoked(hooks[1..])
  }

  /** The name of the first production hook that raises, if any. */
  function Raising(hooks: seq<Hook>): Option<string>
  {
    if hooks == [] then None
    else if IsTestHook(hooks[0].name) then Raising(hooks[1..])
    else if hooks[0].raises then Some(hooks[0].name)
    else Raising(hooks[1..])
  }

  /** One step of the runner from position `i`. */
  lemma RunnerStep(hooks: seq<Hook>, i: int)
    requires 0 <= i < |hooks|
    ensures IsTestHook(hooks[i].name) ==>
              Invoked(hooks[i..]) == Invoked(hooks[i + 1..]) && Raising(hooks[i..]) == Raising(hooks[i + 1..])
    ensures !IsTestHook(hooks[i].name) && hooks[i].raises ==>
              Invoked(hooks[i..]) == [hooks[i]] && Raising(hooks[i..]) == Some(hooks[i].name)
    ensures !IsTestHook(hooks[i].name) && !hooks[i].raises ==>
              Invoked(hooks[i..]) == [hooks[i]] + Invoked(hooks[i + 1..]) && Raising(hooks[i..]) == Raising(hooks[i + 1..])
  {
    assert hooks[i..][0] == hooks[i];
    assert hooks[i..][1..] == hooks[i + 1..];
  }

  /** The loop over `hooks["config"]`: each hook not marked as test-only is
      called with the parsed result; a raise ends the loop and is reported. */
  method RunHooks<N>(hooks: seq<Hook>, parsed: N) returns (calls: seq<Invocation<N>>, raised: Option<string>)
    ensures |calls| == |Invoked(hooks)|
    ensures forall k :: 0 <= k < |calls| ==> calls[k] == Invocation(Invoked(hooks)[k], parsed)
    ensures raised == Raising(hooks)
  {
    calls := [];
    raised := None;
    ghost var done: seq<Hook> := [];
    var i := 0;
    assert hooks[i..] == hooks;
    while i < |hooks|
      invariant 0 <= i <= |hooks|
      invariant |calls| == |done|
      invariant forall k :: 0 <= k < |calls| ==> calls[k] == Invocation(done[k], parsed)
      invariant Invoked(hooks) == done + Invoked(hooks[i..])
      invariant Raising(hooks) == Raising(hooks[i..])
    {
      var hook := hooks[i];
      RunnerStep(hooks, i);
      if !IsTestHook(hook.name) {
        assert done + Invoked(hooks[i..]) == (done + [hook]) + Invoked(hooks[i..])[1..];
        calls := calls + [Invocation(hook, parsed)];
        done := done + [hook];
        if hook.raises {
          raised := Some(hook.name);
          assert Invoked(hooks) == done;
          return;
        }
      }
      i := i + 1;
    }
    assert hooks[i..] == [];
    assert done + [] == done;
  }

  /** Parse, then run the hooks; `parsed` is what the library's own
      `parse_args` produced. */
  method ParseArgsAndRunHooks<N>(hooks: seq<Hook>, parsed: N) returns (calls: seq<Invocation<N>>, outcome: Outcome<N>)
    ensures |calls| == |Invoked(hooks)|
    ensures forall k :: 0 <= k < |calls| ==> calls[k] == Invocation(Invoked(hooks)[k], parsed)
    ensures Raising(hooks).None? ==> outcome == Returned(parsed)
    ensures Raising(hooks).Some? ==> outcome == Propagated(Raising(hooks).value)
  {
    var raised;
    calls, raised := RunHooks(hooks, parsed);
    if raised.Some? {
      outcome := Propagated(raised.value);
    } else {
      outcome := Returned(parsed);
    }
  }

  /** Filtering a registration list split in two is filtering each part. */
  lemma {:induction false} ProductionHooksAppend(hooks: seq<Hook>, more: seq<Hook>)
    ensures ProductionHooks(hooks + more) == ProductionHooks(hooks) + ProductionHooks(more)
  {
    if hooks == [] {
      assert hooks + more == more;
    } else {
      assert (hooks + more)[1..] == hooks[1..] + more;
      ProductionHooksAppend(hooks[1..], more);
    }
  }

  /** A hook is called (when none raises) exactly when it is registered and
      its name does not mark it as test-only. */
  lemma {:induction false} ProductionHooksMembers(hooks: seq<Hook>, h: Hook)
    ensures h in ProductionHooks(hooks) <==> h in hooks && !IsTestHook(h.name)
  {
    if hooks != [] {
      ProductionHooksMembers(hooks[1..], h);
      assert hooks == [hooks[0]] + hooks[1..];
    }
  }

  /** Each production hook is called as many times as it is registered, and
      no test-only hook is called at all. */
  lemma {:induction false} ProductionHooksCounts(hooks: seq<Hook>, h: Hook)
    ensures multiset(ProductionHooks(hooks))[h] == if IsTestHook(h.name) then 0 else multiset(hooks)[h]
  {
    if hooks != [] {
      ProductionHooksCounts(hooks[1..], h);
      assert hooks == [hooks[0]] + hooks[1..];
    }
  }

  /** Running the filter on its own output changes nothing. */
  lemma {:induction false} ProductionHooksIdempotent(hooks: seq<Hook>)
    ensures ProductionHooks(ProductionHooks(hooks)) == ProductionHooks(hooks)
  {
    if hooks != [] {
      ProductionHooksIdempotent(hooks[1..]);
      var rest := ProductionHooks(hooks[1..]);
      if !IsTestHook(hooks[0].name) {
        assert ([hooks[0]] + rest)[1..] == rest;
      }
    }
  }

  /** The hooks called are a prefix of the production hooks, in the same
      order. */
  lemma {:induction false} InvokedPrefix(hooks: seq<Hook>)
    ensures |Invoked(hooks)| <= |ProductionHooks(hooks)|
    ensures Invoked(hooks) == ProductionHooks(hooks)[..|Invoked(hooks)|]
  {
    if hooks != [] {
      InvokedPrefix(hooks[1..]);
      var h := hooks[0];
      if !IsTestHook(h.name) {
        var prod := ProductionHooks(hooks[1..]);
        var inv := Invoked(hooks[1..]);
        assert ProductionHooks(hooks) == [h] + prod;
        if h.raises {
          assert ProductionHooks(hooks)[..1] == [h];
        } else {
          assert ([h] + prod)[..|inv| + 1] == [h] + prod[..|inv|];
        }
      }
    }
  }

  /** When no production hook raises, all of them are called; otherwise
      the calls end with the first that raises, the one whose exception
      propagates, and no hook before it raises. */
  lemma {:induction false} InvokedUntilRaise(hooks: seq<Hook>)
    ensures Raising(hooks).None? ==>
              && Invoked(hooks) == ProductionHooks(hooks)
              && forall k :: 0 <= k < |Invoked(hooks)| ==> !Invoked(hooks)[k].raises
    ensures Raising(hooks).Some? ==>
              && |Invoked(hooks)| > 0
              && Invoked(hooks)[|Invoked(hooks)| - 1].raises
              && Invoked(hooks)[|Invoked(hooks)| - 1].name == Raising(hooks).value
              && forall k :: 0 <= k < |Invoked(hooks)| - 1 ==> !Invoked(hooks)[k].raises
  {
    if hooks != [] {
      InvokedUntilRaise(hooks[1..]);
      var h := hooks[0];
      if !IsTestHook(h.name) && !h.raises {
        var inv := Invoked(hooks[1..]);
        assert Invoked(hooks) == [h] + inv;
        assert forall k :: 1 <= k < |inv| + 1 ==> ([h] + inv)[k] == inv[k - 1];
      }
    }
  }

  /** The test-only hook is skipped and the production hook called, the
      two-hook registration with `test_probe` and `apply_env`. */
  lemma SkipsTestProbe()
    ensures var hooks := [Hook("test_probe", false), Hook("apply_env", false)];
            && Invoked(hooks) == [Hook("apply_env", false)]
            && Raising(hooks) == None
  {
    var hooks := [Hook("test_probe", false), Hook("apply_env", false)];
    assert IsTestHook("test_probe");
    assert !IsTestHook("apply_env") by {
      assert "apply_env"[0] != "test_"[0];
    }
    assert hooks[1..][1..] == [];
  }
}
