/** The database both services share (Database/McppDbContext.cs): the import
    and tool tables in identity order, the next identity of each, and
    `SaveChanges`, which commits a staged state unless one of the database's
    own constraints refuses it. A refused commit leaves the last committed
    state; commits made earlier in the same service call stay. */
module Store {
  import opened Base
  import opened Entities

  /** The committed contents of the two tables. */
  datatype Tables = Tables(imports: seq<Import>, tools: seq<McpTool>, nextImportId: int, nextToolId: int)

  /** The state after a service call, and what the call reports. */
  datatype Step<T> = Step(after: Tables, result: Result<T>)

  predicate ImportIdBefore(a: Import, b: Import) {
    a.id < b.id
  }

  predicate ToolIdBefore(a: McpTool, b: McpTool) {
    a.id < b.id
  }

  /** Identities ascend in table order and stay below the next one. */
  predicate IdsInOrder(t: Tables) {
    && Pairwise(t.imports, ImportIdBefore) && (forall x :: x in t.imports ==> x.id < t.nextImportId)
    && Pairwise(t.tools, ToolIdBefore) && (forall x :: x in t.tools ==> x.id < t.nextToolId)
  }

  /** What holds of every committed state. */
  predicate Consistent(t: Tables) {
    DbConstraints(t.imports, t.tools) && IdsInOrder(t)
  }

  /** `SaveChanges` on a staged state. */
  function Save(before: Tables, staged: Tables): (s: Step<()>)
    ensures s.result.Success? ==> DbConstraints(s.after.imports, s.after.tools)
  {
    if DbConstraints(staged.imports, staged.tools) then Step(staged, Success(()))
    else Step(before, Failure(ConstraintViolation))
  }

  /** A staged state that is itself consistent is always committed. */
  lemma SaveCommitsWhenConsistent(before: Tables, staged: Tables)
    requires Consistent(staged)
    ensures Save(before, staged) == Step(staged, Success(()))
  {
  }

  /** Whether it passes or not, a commit of a staged state whose identities
      are in order leaves a consistent state behind. */
  lemma SaveKeepsConsistent(before: Tables, staged: Tables)
    requires Consistent(before) && IdsInOrder(staged)
    ensures Consistent(Save(before, staged).after)
  {
  }

  /** Deleting tool rows never breaks a constraint. */
  lemma DropToolsKeepsConsistent(t: Tables, p: McpTool -> bool)
    requires Consistent(t)
    ensures Consistent(t.(tools := Filter(t.tools, p)))
  {
    FilterMembers(t.tools, p);
    FilterKeepsPairwise(t.tools, p, ToolsCompatible);
    FilterKeepsPairwise(t.tools, p, ToolIdBefore);
  }

  /** Appending tool rows with fresh, ascending identities keeps them in order. */
  lemma AppendToolsKeepsIds(t: Tables, added: seq<McpTool>, next: int)
    requires IdsInOrder(t)
    requires Pairwise(added, ToolIdBefore)
    requires t.nextToolId <= next && forall x :: x in added ==> t.nextToolId <= x.id < next
    ensures IdsInOrder(t.(tools := t.tools + added, nextToolId := next))
  {
    forall i, j | 0 <= i < |t.tools| && 0 <= j < |added|
      ensures ToolIdBefore(t.tools[i], added[j])
    {
      assert t.tools[i] in t.tools && added[j] in added;
    }
    AppendKeepsPairwise(t.tools, added, ToolIdBefore);
  }

  /** Rewriting one tool row under its own identity keeps identities in order. */
  lemma ReplaceToolKeepsIds(t: Tables, i: nat, row: McpTool)
    requires IdsInOrder(t) && i < |t.tools| && row.id == t.tools[i].id
    ensures IdsInOrder(t.(tools := t.tools[i := row]))
  {
    var ts := t.tools[i := row];
    forall a, b | 0 <= a < b < |ts|
      ensures ToolIdBefore(ts[a], ts[b])
    {
      assert ToolIdBefore(t.tools[a], t.tools[b]);
    }
    forall x | x in ts
      ensures x.id < t.nextToolId
    {
      var k :| 0 <= k < |ts| && ts[k] == x;
      assert t.tools[k] in t.tools;
    }
  }

  /** Rewriting one tool row without touching its identity, name, signature
      or import keeps every constraint. */
  lemma ReplaceToolKeepsConsistent(t: Tables, i: nat, row: McpTool)
    requires Consistent(t) && i < |t.tools|
    requires row.id == t.tools[i].id && row.name == t.tools[i].name && row.importId == t.tools[i].importId
    requires row.httpMethod == t.tools[i].httpMethod && row.requestPath == t.tools[i].requestPath
    ensures Consistent(t.(tools := t.tools[i := row]))
  {
    ReplaceToolKeepsIds(t, i, row);
    var ts := t.tools[i := row];
    forall a, b | 0 <= a < b < |ts|
      ensures ToolsCompatible(ts[a], ts[b])
    {
      assert ToolsCompatible(t.tools[a], t.tools[b]);
    }
    forall x | x in ts
      ensures x.name.Some? && HasImport(t.imports, x.importId)
    {
      var k :| 0 <= k < |ts| && ts[k] == x;
      assert t.tools[k] in t.tools;
    }
  }

  /** The rows of a committed state identify themselves: one row per id. */
  lemma IdentifiesRows(t: Tables, i: nat, j: nat)
    requires Consistent(t)
    requires i < |t.tools| && j < |t.tools|
    ensures t.tools[i].id == t.tools[j].id ==> i == j
  {
    if i < j {
      assert ToolIdBefore(t.tools[i], t.tools[j]);
    } else if j < i {
      assert ToolIdBefore(t.tools[j], t.tools[i]);
    }
  }

  /** The database as a mutable object. */
  class McppDb {
    var imports: seq<Import>
    var tools: seq<McpTool>
    var nextImportId: int
    var nextToolId: int

    function State(): Tables
      reads this
    {
      Tables(imports, tools, nextImportId, nextToolId)
    }

    ghost predicate Valid()
      reads this
    {
      Consistent(State())
    }

    /** An empty database; identities start at 1. */
    constructor ()
      ensures State() == Tables([], [], 1, 1)
      ensures Valid()
    {
      imports, tools := [], [];
      nextImportId, nextToolId := 1, 1;
    }

    /** `SaveChangesAsync`: commit `staged`, or report the refusal and keep
        the committed state. */
    method SaveChanges(staged: Tables) returns (r: Result<()>)
      modifies this
      ensures Step(State(), r) == Save(old(State()), staged)
    {
      if DbConstraints(staged.imports, staged.tools) {
        imports, tools := staged.imports, staged.tools;
        nextImportId, nextToolId := staged.nextImportId, staged.nextToolId;
        r := Success(());
      } else {
        r := Failure(ConstraintViolation);
      }
    }
  }
}
