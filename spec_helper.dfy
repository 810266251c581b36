/**
 * The query helpers the generator's tests read generated documents through.
 * A resource document's `apis` is an ordered list of API entries, each a path
 * with its ordered operations; an operation carries its HTTP method and its
 * ordered parameters (the API Declaration object of Swagger 1.2, section 5.2).
 */
module SpecHelper {
  import opened Optional

  /** One entry of an operation's `parameters`. */
  datatype Parameter = Parameter(paramType: string, name: string, dataType: string, description: string, required: bool)

  /** One entry of an API's `operations`; `httpMethod` is the `"method"` key. */
  datatype Operation = Operation(httpMethod: string, nickname: string, summary: string, parameters: seq<Parameter>)

  /** One entry of a document's `apis`. */
  datatype Api = Api(path: string, operations: seq<Operation>)

  /** `get_api_paths`: the API entries whose path is `path`, in document order. */
  function ApiPaths(apis: seq<Api>, path: string): (r: seq<Api>)
    ensures forall a :: multiset(r)[a] == if a.path == path then multiset(apis)[a] else 0
    decreases |apis|
  {
    if |apis| == 0 then []
    else
      assert apis == [apis[0]] + apis[1..];
      (if apis[0].path == path then [apis[0]] else []) + ApiPaths(apis[1..], path)
  }

  /** `collect { ... }.flatten`: the operations of `apis`, entry after entry. */
  function Flatten(apis: seq<Api>): (r: seq<Operation>)
    ensures forall o :: o in r <==> exists a :: a in apis && o in a.operations
    decreases |apis|
  {
    if |apis| == 0 then []
    else
      assert forall a :: a in apis <==> a == apis[0] || a in apis[1..];
      apis[0].operations + Flatten(apis[1..])
  }

  /**
   * `get_api_operations`: the operations of every entry whose path is `path`,
   * in document order; empty when no entry has that path.
   */
  function ApiOperations(apis: seq<Api>, path: string): (r: seq<Operation>)
    ensures forall o :: o in r <==> exists a :: a in apis && a.path == path && o in a.operations
    ensures (forall a :: a in apis ==> a.path != path) ==> r == []
  {
    var selected := ApiPaths(apis, path);
    assert forall a :: a in selected <==> a in apis && a.path == path by {
      forall a ensures a in selected <==> a in apis && a.path == path {
        assert multiset(selected)[a] == if a.path == path then multiset(apis)[a] else 0;
      }
    }
    assert (forall a :: a in apis ==> a.path != path) ==> selected == [] by {
      if selected != [] {
        assert selected[0] in selected;
      }
    }
    Flatten(selected)
  }

  /** Selecting is a homomorphism of concatenation: it keeps the document order. */
  lemma {:induction false} ApiPathsAppend(xs: seq<Api>, ys: seq<Api>, path: string)
    ensures ApiPaths(xs + ys, path) == ApiPaths(xs, path) + ApiPaths(ys, path)
    decreases |xs|
  {
    if |xs| == 0 {
      assert xs + ys == ys;
    } else {
      assert (xs + ys)[0] == xs[0];
      assert (xs + ys)[1..] == xs[1..] + ys;
      ApiPathsAppend(xs[1..], ys, path);
    }
  }

  /** Selecting twice by the same path selects nothing more and nothing less. */
  lemma {:induction false} ApiPathsIdempotent(apis: seq<Api>, path: string)
    ensures ApiPaths(ApiPaths(apis, path), path) == ApiPaths(apis, path)
    decreases |apis|
  {
    if |apis| > 0 {
      var rest := ApiPaths(apis[1..], path);
      ApiPathsIdempotent(apis[1..], path);
      if apis[0].path == path {
        ApiPathsAppend([apis[0]], rest, path);
      } else {
        assert ApiPaths(apis, path) == rest;
      }
    }
  }

  /** Flattening is a homomorphism of concatenation. */
  lemma {:induction false} FlattenAppend(xs: seq<Api>, ys: seq<Api>)
    ensures Flatten(xs + ys) == Flatten(xs) + Flatten(ys)
    decreases |xs|
  {
    if |xs| == 0 {
      assert xs + ys == ys;
    } else {
      assert (xs + ys)[0] == xs[0];
      assert (xs + ys)[1..] == xs[1..] + ys;
      FlattenAppend(xs[1..], ys);
    }
  }

  /** A single entry flattens to its own operations, in their order and with their repeats. */
  lemma FlattenOne(a: Api)
    ensures Flatten([a]) == a.operations
  {
    assert [a][1..] == [];
  }

  /**
   * A one-entry document yields that entry's operations, in their order, when
   * its path matches, and nothing otherwise. With `ApiOperationsAppend` this
   * determines `get_api_operations` on every document.
   */
  lemma ApiOperationsOne(a: Api, path: string)
    ensures ApiOperations([a], path) == if a.path == path then a.operations else []
  {
    assert [a][1..] == [];
    FlattenOne(a);
  }

  /**
   * The operations of two concatenated documents are those of the first
   * followed by those of the second: document order is preserved.
   */
  lemma ApiOperationsAppend(xs: seq<Api>, ys: seq<Api>, path: string)
    ensures ApiOperations(xs + ys, path) == ApiOperations(xs, path) + ApiOperations(ys, path)
  {
    ApiPathsAppend(xs, ys, path);
    FlattenAppend(ApiPaths(xs, path), ApiPaths(ys, path));
  }

  /** `i` is the position of the first operation of `ops` whose method is `m`. */
  ghost predicate IsFirstWithMethod(ops: seq<Operation>, m: string, i: int)
  {
    && 0 <= i < |ops|
    && ops[i].httpMethod == m
    && forall j :: 0 <= j < i ==> ops[j].httpMethod != m
  }

  /** `i` is the position of the first parameter of `params` named `name`. */
  ghost predicate IsFirstNamed(params: seq<Parameter>, name: string, i: int)
  {
    && 0 <= i < |params|
    && params[i].name == name
    && forall j :: 0 <= j < i ==> params[j].name != name
  }

  /**
   * `get_api_operation`: the first operation, among the operations of the
   * entries at `path`, whose method is `m` (the string form of the requested
   * method); `None` when there is none.
   */
  method GetApiOperation(apis: seq<Api>, path: string, m: string) returns (r: Option<Operation>)
    ensures r.None? <==> forall j :: 0 <= j < |ApiOperations(apis, path)| ==> ApiOperations(apis, path)[j].httpMethod != m
    ensures r.Some? ==> exists i ::
      && IsFirstWithMethod(ApiOperations(apis, path), m, i)
      && r.value == ApiOperations(apis, path)[i]
    ensures r.Some? ==> r.value.httpMethod == m && r.value in ApiOperations(apis, path)
    ensures r.Some? ==> exists a :: a in apis && a.path == path && r.value in a.operations
  {
    var operations := ApiOperations(apis, path);
    var i := 0;
    while i < |operations|
      invariant 0 <= i <= |operations|
      invariant forall j :: 0 <= j < i ==> operations[j].httpMethod != m
    {
      if operations[i].httpMethod == m {
        assert IsFirstWithMethod(operations, m, i);
        assert operations[i] in operations;
        return Some(operations[i]);
      }
      i := i + 1;
    }
    return None;
  }

  /**
   * `get_api_parameter`: the first parameter of the operation named `name`;
   * `None` when there is none.
   */
  method GetApiParameter(op: Operation, name: string) returns (r: Option<Parameter>)
    ensures r.None? <==> forall j :: 0 <= j < |op.parameters| ==> op.parameters[j].name != name
    ensures r.Some? ==> exists i :: IsFirstNamed(op.parameters, name, i) && r.value == op.parameters[i]
    ensures r.Some? ==> r.value.name == name && r.value in op.parameters
  {
    var i := 0;
    while i < |op.parameters|
      invariant 0 <= i <= |op.parameters|
      invariant forall j :: 0 <= j < i ==> op.parameters[j].name != name
    {
      if op.parameters[i].name == name {
        assert IsFirstNamed(op.parameters, name, i);
        return Some(op.parameters[i]);
      }
      i := i + 1;
    }
    return None;
  }
}
