/**
 * The process-wide table of node functions ("tools") and condition functions
 * (code_review/app/registry.py). The two tables are separate namespaces.
 */
module Registry {
  import opened Wrappers
  import opened Models

  /** The message of the `ValueError` raised for an unregistered tool. */
  function ToolNotFoundMessage(name: string): string
  {
    "Tool '" + name + "' not found in registry."
  }

  /** The message of the `ValueError` raised for an unregistered condition. */
  function ConditionNotFoundMessage(name: string): string
  {
    "Condition '" + name + "' not found in registry."
  }

  /**
   * The two not-found messages name the missing entry: equal messages come from
   * equal names, and a tool message is never a condition message.
   */
  lemma {:induction false} NotFoundMessagesIdentify(a: string, b: string)
    ensures ToolNotFoundMessage(a) == ToolNotFoundMessage(b) ==> a == b
    ensures ConditionNotFoundMessage(a) == ConditionNotFoundMessage(b) ==> a == b
    ensures ToolNotFoundMessage(a) != ConditionNotFoundMessage(b)
  {
    var ta, tb := ToolNotFoundMessage(a), ToolNotFoundMessage(b);
    if ta == tb {
      assert |a| == |b|;
      assert a == ta[6..6 + |a|];
      assert b == tb[6..6 + |b|];
    }
    var ca, cb := ConditionNotFoundMessage(a), ConditionNotFoundMessage(b);
    if ca == cb {
      assert |a| == |b|;
      assert a == ca[11..11 + |a|];
      assert b == cb[11..11 + |b|];
    }
    assert ta[0] == 'T' && ConditionNotFoundMessage(b)[0] == 'C';
  }

  class ToolRegistry {
    /** Node functions (state to state) by name. */
    var tools: map<string, Callable>
    /** Condition functions (state to branch key) by name. */
    var conditions: map<string, Callable>

    /** A new registry holds no tools and no conditions. */
    constructor ()
      ensures tools == map[] && conditions == map[]
    {
      tools := map[];
      conditions := map[];
    }

    /** Registers (or re-registers: the last registration wins) a node function. */
    method RegisterTool(name: string, func: Callable)
      modifies this
      ensures tools == old(tools)[name := func]
      ensures conditions == old(conditions)
    {
      tools := tools[name := func];
    }

    /** Registers (or re-registers: the last registration wins) a condition function. */
    method RegisterCondition(name: string, func: Callable)
      modifies this
      ensures conditions == old(conditions)[name := func]
      ensures tools == old(tools)
    {
      conditions := conditions[name := func];
    }

    /** Looks up a node function; fails exactly when the name was never registered as a tool. */
    method GetTool(name: string) returns (r: Result<Callable, string>)
      ensures r.Success? <==> name in tools
      ensures r.Success? ==> r.value == tools[name]
      ensures r.Failure? ==> r.error == ToolNotFoundMessage(name)
    {
      if name !in tools {
        return Failure(ToolNotFoundMessage(name));
      }
      return Success(tools[name]);
    }

    /** Looks up a condition function; fails exactly when the name was never registered as a condition. */
    method GetCondition(name: string) returns (r: Result<Callable, string>)
      ensures r.Success? <==> name in conditions
      ensures r.Success? ==> r.value == conditions[name]
      ensures r.Failure? ==> r.error == ConditionNotFoundMessage(name)
    {
      if name !in conditions {
        return Failure(ConditionNotFoundMessage(name));
      }
      return Success(conditions[name]);
    }
  }

  /**
   * A registry scenario: after registering `f` and then `g` under one tool name, and `c`
   * as a condition under the same name, the tool lookup yields `g` and the condition
   * lookup yields `c`; a name registered only as a condition is still an unknown tool.
   */
  method LastRegistrationWins(name: string, other: string, f: Callable, g: Callable, c: Callable)
    returns (tool: Result<Callable, string>, cond: Result<Callable, string>, missing: Result<Callable, string>)
    requires other != name
    ensures tool == Success(g)
    ensures cond == Success(c)
    ensures missing == Failure(ToolNotFoundMessage(other))
  {
    var reg := new ToolRegistry();
    reg.RegisterTool(name, f);
    reg.RegisterTool(name, g);
    reg.RegisterCondition(name, c);
    reg.RegisterCondition(other, c);
    tool := reg.GetTool(name);
    cond := reg.GetCondition(name);
    missing := reg.GetTool(other);
  }
}
