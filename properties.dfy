/**
 * Properties of the query builder that relate several calls. Each method is
 * a client that sets up its own backend and façade, performs a sequence of
 * builder operations and returns what the backend received, so that its
 * postcondition states, for all inputs, what that sequence sends.
 */
module Properties {
  import opened Filters
  import opened SoapClient
  import opened QueryBuilders

  /** The requests a chain `get(F, O).where(f1)...where(fk)` sends while it
      is built, when the builder is awaited right after each step `i` with
      `awaitAfter[i]`: one `get` per such step, carrying the filters
      appended up to and including that step. */
  function Sent(fields: seq<string>, options: Option<GetOptions>, fs: seq<Filter>, awaitAfter: seq<bool>, k: nat): seq<Call>
    requires |awaitAfter| == |fs| && k <= |fs|
  {
    if k == 0 then []
    else
      Sent(fields, options, fs, awaitAfter, k - 1)
      + (if awaitAfter[k - 1] then [GetCall(Request(fields, fs[..k], options))] else [])
  }

  /** The `where` calls send nothing: building the chain reaches the backend
      exactly when some step is awaited. */
  lemma {:induction false} SentIsEmpty(fields: seq<string>, options: Option<GetOptions>, fs: seq<Filter>, awaitAfter: seq<bool>, k: nat)
    requires |awaitAfter| == |fs| && k <= |fs|
    ensures Sent(fields, options, fs, awaitAfter, k) == [] <==> forall i :: 0 <= i < k ==> !awaitAfter[i]
  {
    if k > 0 {
      SentIsEmpty(fields, options, fs, awaitAfter, k - 1);
    }
  }

  /** Each request sent while the chain is built has the chain's fields and
      options and a non-empty prefix of its filters, in call order; a later
      await sees a strictly longer prefix, because the list only grows. */
  lemma {:induction false} SentArePrefixes(fields: seq<string>, options: Option<GetOptions>, fs: seq<Filter>, awaitAfter: seq<bool>, k: nat)
    requires |awaitAfter| == |fs| && k <= |fs|
    ensures forall j :: 0 <= j < |Sent(fields, options, fs, awaitAfter, k)| ==>
      var c := Sent(fields, options, fs, awaitAfter, k)[j];
      && c.GetCall?
      && c.request.fields == fields && c.request.options == options
      && 1 <= |c.request.filters| <= k
      && c.request.filters == fs[..|c.request.filters|]
    ensures forall i, j :: 0 <= i < j < |Sent(fields, options, fs, awaitAfter, k)| ==>
      |Sent(fields, options, fs, awaitAfter, k)[i].request.filters|
        < |Sent(fields, options, fs, awaitAfter, k)[j].request.filters|
  {
    if k > 0 {
      SentArePrefixes(fields, options, fs, awaitAfter, k - 1);
    }
  }

  /** `get(F, O).where(f1)...where(fn)`, awaiting the latest builder
      reference after step `i` whenever `awaitAfter[i]`: while the chain is
      built the backend receives exactly `Sent(...)`; awaiting the first
      where-stage reference at the end (an alias of every later one) then
      sends one more `get` with fields `F`, options `O` and filters
      `[f1..fn]` in call order. With no `where`, the get stage itself is
      resolved and the filters are empty. */
  method ResolveChain(fields: seq<string>, options: Option<GetOptions>, fs: seq<Filter>, awaitAfter: seq<bool>)
    returns (beforeResolve: seq<Call>, afterResolve: seq<Call>)
    requires |awaitAfter| == |fs|
    ensures beforeResolve == Sent(fields, options, fs, awaitAfter, |fs|)
    ensures afterResolve == beforeResolve + [GetCall(Request(fields, fs, options))]
  {
    var client := new DataExtensionSoap();
    var facade := new QueryBuilder(client);
    var g := facade.Get(fields, options);
    if |fs| == 0 {
      beforeResolve := client.log;
      var _ := g.Resolve();
    } else {
      var first := g.Where(fs[0].columnName, fs[0].operator, fs[0].value);
      if awaitAfter[0] {
        var _ := first.Resolve();
      }
      var w := first;
      var i := 1;
      while i < |fs|
        invariant 1 <= i <= |fs|
        invariant w == first
        invariant fresh(w.filters)
        invariant w.client == client && w.fields == fields && w.options == options
        invariant w.filters.items == fs[..i]
        invariant client.log == Sent(fields, options, fs, awaitAfter, i)
      {
        w := w.Where(fs[i].columnName, fs[i].operator, fs[i].value);
        if awaitAfter[i] {
          var _ := w.Resolve();
        }
        i := i + 1;
      }
      assert fs[..i] == fs;
      beforeResolve := client.log;
      var _ := first.Resolve();
    }
    afterResolve := client.log;
  }

  /** A where-stage builder and the builder its `where` returns are one
      object over one list: resolving the first after a `where` on the
      second sends the appended filter too, and so does a later append. */
  method AliasesShareFilters(fields: seq<string>, options: Option<GetOptions>, f1: Filter, f2: Filter, f3: Filter)
    returns (same: bool, log: seq<Call>)
    ensures same
    ensures log == [GetCall(Request(fields, [f1, f2], options)), GetCall(Request(fields, [f1, f2, f3], options))]
  {
    var client := new DataExtensionSoap();
    var facade := new QueryBuilder(client);
    var g := facade.Get(fields, options);
    var w := g.Where(f1.columnName, f1.operator, f1.value);
    var alias := w.Where(f2.columnName, f2.operator, f2.value);
    same := alias == w;
    assert w.filters.items == [f1, f2];
    var _ := w.Resolve();
    assert client.log == [GetCall(Request(fields, [f1, f2], options))];
    var _ := alias.Where(f3.columnName, f3.operator, f3.value);
    assert w.filters.items == [f1, f2, f3];
    var _ := w.Resolve();
    log := client.log;
  }

  /** Two `where` calls on one get-stage builder start independent lists,
      and neither changes the get-stage builder's own (empty) filters. */
  method GetBranchesIndependent(fields: seq<string>, options: Option<GetOptions>, f1: Filter, f2: Filter, f3: Filter)
    returns (distinct: bool, log: seq<Call>)
    ensures distinct
    ensures log == [
      GetCall(Request(fields, [f1, f3], options)),
      GetCall(Request(fields, [f2], options)),
      GetCall(Request(fields, [], options))]
  {
    var client := new DataExtensionSoap();
    var facade := new QueryBuilder(client);
    var g := facade.Get(fields, options);
    var a := g.Where(f1.columnName, f1.operator, f1.value);
    var b := g.Where(f2.columnName, f2.operator, f2.value);
    distinct := a != b && a.filters != b.filters;
    a := a.Where(f3.columnName, f3.operator, f3.value);
    assert a.filters.items == [f1, f3] && b.filters.items == [f2] && g.filters.items == [];
    var _ := a.Resolve();
    var _ := b.Resolve();
    var _ := g.Resolve();
    log := client.log;
  }

  /** Nothing is memoised: resolving the same builder twice sends two
      identical requests and yields two distinct pending replies. */
  method ResolveTwice(fields: seq<string>, options: Option<GetOptions>, f: Filter)
    returns (first: Reply, second: Reply, log: seq<Call>)
    ensures first != second
    ensures log == [GetCall(Request(fields, [f], options)), GetCall(Request(fields, [f], options))]
  {
    var client := new DataExtensionSoap();
    var facade := new QueryBuilder(client);
    var g := facade.Get(fields, options);
    var w := g.Where(f.columnName, f.operator, f.value);
    first := w.Resolve();
    second := w.Resolve();
    log := client.log;
  }

  /** `create` forwards its record unchanged in one backend `create`, and
      `delete` sends one argument-less backend `delete`; neither sends a
      `get`. */
  method CreateThenDelete(record: FieldRecord) returns (created: Reply, deleted: Reply, log: seq<Call>)
    ensures log == [CreateCall(record), DeleteCall]
    ensures created == Pending(0) && deleted == Pending(1)
  {
    var client := new DataExtensionSoap();
    var facade := new QueryBuilder(client);
    created := facade.Create(record);
    deleted := facade.Delete();
    log := client.log;
  }
}
