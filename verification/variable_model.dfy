/** A workspace variable: its construction with defaults, its immutable id, the
    create event construction reports, and ordering by name. */
module Variables {
  import opened Js
  import opened Events

  // ---------------------------------------------------------------------------
  // Ordering by name.
  // ---------------------------------------------------------------------------

  /** Ordinal comparison of two names, character by character: -1, 0 or 1. */
  function CompareStrings(a: string, b: string): (r: int)
    ensures -1 <= r <= 1
    ensures r == 0 <==> a == b
  {
    if a == [] && b == [] then 0
    else if a == [] then -1
    else if b == [] then 1
    else if a[0] < b[0] then -1
    else if a[0] > b[0] then 1
    else
      var r := CompareStrings(a[1..], b[1..]);
      assert a == [a[0]] + a[1..] && b == [b[0]] + b[1..];
      r
  }

  /** Reference definition of "a sorts before b": a proper prefix of b, or smaller at
      the first position where they differ. */
  ghost predicate LexLess(a: string, b: string) {
    || (|a| < |b| && a == b[..|a|])
    || exists k :: 0 <= k < |a| && k < |b| && a[..k] == b[..k] && a[k] < b[k]
  }

  lemma LexLessTail(a: string, b: string)
    requires a != [] && b != [] && a[0] == b[0]
    ensures LexLess(a, b) <==> LexLess(a[1..], b[1..])
  {
    var a', b' := a[1..], b[1..];
    assert (|a| < |b| && a == b[..|a|]) <==> (|a'| < |b'| && a' == b'[..|a'|]) by {
      if |a| < |b| {
        assert b[..|a|] == [b[0]] + b'[..|a'|];
        assert a == [a[0]] + a';
      }
    }
    if exists k :: 0 <= k < |a| && k < |b| && a[..k] == b[..k] && a[k] < b[k] {
      var k :| 0 <= k < |a| && k < |b| && a[..k] == b[..k] && a[k] < b[k];
      assert k != 0;
      assert a'[..k-1] == a[1..k] == b[1..k] == b'[..k-1];
      assert a'[k-1] < b'[k-1];
    }
    if exists j :: 0 <= j < |a'| && j < |b'| && a'[..j] == b'[..j] && a'[j] < b'[j] {
      var j :| 0 <= j < |a'| && j < |b'| && a'[..j] == b'[..j] && a'[j] < b'[j];
      assert a[..j+1] == [a[0]] + a'[..j];
      assert b[..j+1] == [b[0]] + b'[..j];
      assert a[j+1] < b[j+1];
    }
  }

  /** The comparison is -1 exactly when the first name sorts before the second. */
  lemma {:induction false} CompareStringsIsLexicographic(a: string, b: string)
    ensures CompareStrings(a, b) == -1 <==> LexLess(a, b)
  {
    if a == [] || b == [] {
      if a == [] && b != [] {
        assert a == b[..0];
      }
    } else if a[0] < b[0] {
      assert a[..0] == b[..0];
    } else if a[0] > b[0] {
      if |a| < |b| {
        assert b[..|a|][0] == b[0] != a[0];
      }
      forall k | 0 < k < |a| && k < |b|
        ensures a[..k] != b[..k]
      {
        assert a[..k][0] != b[..k][0];
      }
    } else {
      CompareStringsIsLexicographic(a[1..], b[1..]);
      LexLessTail(a, b);
    }
  }

  /** Swapping the names negates the comparison. */
  lemma {:induction false} CompareStringsAntisymmetric(a: string, b: string)
    ensures CompareStrings(a, b) == -CompareStrings(b, a)
  {
    if a != [] && b != [] && a[0] == b[0] {
      CompareStringsAntisymmetric(a[1..], b[1..]);
    }
  }

  /** The comparison orders names transitively. */
  lemma {:induction false} CompareStringsTransitive(a: string, b: string, c: string)
    requires CompareStrings(a, b) == -1 && CompareStrings(b, c) == -1
    ensures CompareStrings(a, c) == -1
  {
    if a != [] && b != [] && c != [] && a[0] == b[0] == c[0] {
      CompareStringsTransitive(a[1..], b[1..], c[1..]);
    }
  }

  // ---------------------------------------------------------------------------
  // The variable.
  // ---------------------------------------------------------------------------

  class VariableModel {
    /** The id of the owning workspace. */
    const workspaceId: string
    /** Fixed at construction: no member assigns it afterwards. */
    const id: string
    var name: string
    var varType: string
    var isLocal: bool
    var isCloud: bool

    /** Applies the defaults (type '', a generated id when none or an empty one is
        given, not local, not cloud) and reports one create event for the new
        variable to the bus (which keeps it only while enabled).  `generatedId` is
        what the uid generator returns. */
    constructor (bus: EventBus, workspaceId: string, name: string, optType: Option<string>,
                 optId: Option<string>, optIsLocal: Option<bool>, optIsCloud: Option<bool>,
                 generatedId: string)
      modifies bus`log
      ensures this.workspaceId == workspaceId && this.name == name
      ensures varType == (if optType.Some? then optType.value else "")
      ensures GetId() == (if Truthy(optId) then optId.value else generatedId)
      ensures isLocal <==> optIsLocal == Some(true)
      ensures isCloud <==> optIsCloud == Some(true)
      ensures bus.log == old(bus.log) +
        (if bus.enabled then [VarCreate(id, name, varType, isLocal, isCloud, bus.group)] else [])
    {
      this.workspaceId := workspaceId;
      this.name := name;
      varType := StringOr(optType, "");
      id := StringOr(optId, generatedId);
      isLocal := BoolOrFalse(optIsLocal);
      isCloud := BoolOrFalse(optIsCloud);
      new;
      bus.Fire(VarCreate(id, name, varType, isLocal, isCloud, bus.group));
    }

    /** The id fixed at construction. */
    function GetId(): (r: string)
      ensures r == id
    {
      id
    }

    /** Orders two variables by name: -1, 0 or 1; 0 exactly for equal names; swapping
        the arguments negates the result. */
    static function CompareByName(var1: VariableModel, var2: VariableModel): (r: int)
      reads var1, var2
      ensures -1 <= r <= 1
      ensures r == 0 <==> var1.name == var2.name
      ensures r == -CompareStrings(var2.name, var1.name)
      ensures r == -1 <==> LexLess(var1.name, var2.name)
    {
      CompareStringsAntisymmetric(var1.name, var2.name);
      CompareStringsIsLexicographic(var1.name, var2.name);
      CompareStrings(var1.name, var2.name)
    }
  }
}
