/**
 * The deferred query builder. A get-stage builder holds the selected fields,
 * an empty filter list and the options; its `where` starts a where-stage
 * builder over a new one-element filter list. A where-stage builder's `where`
 * appends to its own list in place and returns the same object, so every
 * alias of it sees later appends. No backend call happens until a builder is
 * resolved; each resolution issues exactly one backend `get`.
 *
 * The awaitable proxies are modelled by an explicit `Resolve` method that
 * stands for the intercepted `then` hook: it runs `Execute` once.
 */
module QueryBuilders {
  import opened Filters
  import opened SoapClient

  /** A mutable filter array, shared by reference between builders. */
  class FilterList {
    var items: seq<Filter>

    constructor (items: seq<Filter>)
      ensures this.items == items
    {
      this.items := items;
    }

    /** Array `push`: appends one filter at the end, in place. */
    method Push(f: Filter)
      modifies this
      ensures items == old(items) + [f]
    {
      items := items + [f];
    }
  }

  /** The get stage: created by `QueryBuilder.Get`, no filters yet. */
  class GetBuilder {
    const client: DataExtensionSoap
    const fields: seq<string>
    const filters: FilterList
    const options: Option<GetOptions>

    constructor (client: DataExtensionSoap, fields: seq<string>, options: Option<GetOptions>)
      ensures this.client == client && this.fields == fields && this.options == options
      ensures fresh(filters) && filters.items == []
    {
      this.client := client;
      this.fields := fields;
      this.filters := new FilterList([]);
      this.options := options;
    }

    /** Starts a where stage over a new one-element filter list, sharing
        this builder's fields and options; this builder is left as it was
        and the backend is not called. */
    method Where(columnName: string, operator: SoapOperator, value: string) returns (w: WhereBuilder)
      ensures fresh(w) && fresh(w.filters)
      ensures w.client == client && w.fields == fields && w.options == options
      ensures w.filters.items == [Filter(columnName, operator, value)]
    {
      var list := new FilterList([Filter(columnName, operator, value)]);
      w := CreateWhereProxy(client, fields, list, options);
    }

    /** Issues one backend `get` with the current fields, filters and options. */
    method Execute() returns (reply: Reply)
      modifies client
      ensures client.log == old(client.log) + [GetCall(Request(fields, filters.items, options))]
      ensures reply == Pending(|old(client.log)|)
    {
      reply := client.Get(Request(fields, filters.items, options));
    }

    /** Awaiting the builder: the `then` hook runs `Execute` once, with no
        memoisation, so every resolution is a new backend call. */
    method Resolve() returns (reply: Reply)
      modifies client
      ensures client.log == old(client.log) + [GetCall(Request(fields, filters.items, options))]
      ensures reply == Pending(|old(client.log)|)
    {
      reply := Execute();
    }
  }

  /** The awaitable get-stage builder over `fields` and `options`. */
  method CreateGetProxy(client: DataExtensionSoap, fields: seq<string>, options: Option<GetOptions>)
    returns (g: GetBuilder)
    ensures fresh(g) && fresh(g.filters)
    ensures g.client == client && g.fields == fields && g.options == options
    ensures g.filters.items == []
  {
    g := new GetBuilder(client, fields, options);
  }

  /** The where stage: holds a filter list by reference and grows it in place. */
  class WhereBuilder {
    const client: DataExtensionSoap
    const fields: seq<string>
    const filters: FilterList
    const options: Option<GetOptions>

    constructor (client: DataExtensionSoap, fields: seq<string>, filters: FilterList, options: Option<GetOptions>)
      ensures this.client == client && this.fields == fields && this.options == options
      ensures this.filters == filters
    {
      this.client := client;
      this.fields := fields;
      this.filters := filters;
      this.options := options;
    }

    /** Appends exactly one filter at the end of the shared list and returns
        this same builder; fields, options and the backend are untouched. */
    method Where(columnName: string, operator: SoapOperator, value: string) returns (self: WhereBuilder)
      modifies filters
      ensures self == this
      ensures filters.items == old(filters.items) + [Filter(columnName, operator, value)]
    {
      filters.Push(Filter(columnName, operator, value));
      self := this;
    }

    /** Issues one backend `get` with the current fields, filters and options. */
    method Execute() returns (reply: Reply)
      modifies client
      ensures client.log == old(client.log) + [GetCall(Request(fields, filters.items, options))]
      ensures reply == Pending(|old(client.log)|)
    {
      reply := client.Get(Request(fields, filters.items, options));
    }

    /** Awaiting the builder: the `then` hook runs `Execute` once. */
    method Resolve() returns (reply: Reply)
      modifies client
      ensures client.log == old(client.log) + [GetCall(Request(fields, filters.items, options))]
      ensures reply == Pending(|old(client.log)|)
    {
      reply := Execute();
    }
  }

  /** The awaitable where-stage builder over the given list, which it shares
      with the caller rather than copies. */
  method CreateWhereProxy(client: DataExtensionSoap, fields: seq<string>, filters: FilterList, options: Option<GetOptions>)
    returns (w: WhereBuilder)
    ensures fresh(w)
    ensures w.client == client && w.fields == fields && w.options == options
    ensures w.filters == filters
  {
    w := new WhereBuilder(client, fields, filters, options);
  }

  /** The entry point per data extension. */
  class QueryBuilder {
    const client: DataExtensionSoap

    constructor (client: DataExtensionSoap)
      ensures this.client == client
    {
      this.client := client;
    }

    /** A get-stage builder over exactly these fields and options; nothing
        is sent to the backend. */
    method Get(fields: seq<string>, options: Option<GetOptions>) returns (g: GetBuilder)
      ensures fresh(g) && fresh(g.filters)
      ensures g.client == client && g.fields == fields && g.options == options
      ensures g.filters.items == []
    {
      g := CreateGetProxy(client, fields, options);
    }

    /** Forwards the record unchanged to exactly one backend `create`. */
    method Create(record: FieldRecord) returns (reply: Reply)
      modifies client
      ensures client.log == old(client.log) + [CreateCall(record)]
      ensures reply == Pending(|old(client.log)|)
    {
      reply := client.Create(record);
    }

    /** Exactly one backend `delete`, with no arguments. */
    method Delete() returns (reply: Reply)
      modifies client
      ensures client.log == old(client.log) + [DeleteCall]
      ensures reply == Pending(|old(client.log)|)
    {
      reply := client.Delete();
    }
  }
}
