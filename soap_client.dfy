/**
 * The backend collaborator `SfmcDataExtensionSoap`, whose definition is not
 * part of this model. It is represented by what the query builder can
 * observe of it: the requests it receives, in order. Each call answers with
 * a pending reply naming the position of that call in the log; the rows or
 * acknowledgement the real client eventually delivers are left out.
 */
module SoapClient {
  import opened Filters

  datatype Option<+T> = None | Some(value: T)

  /** `ISoapGetOptions`: an opaque bag forwarded to the backend unchanged. */
  datatype GetOptions = GetOptions(settings: map<string, string>)

  /** The record handed to `create`: column names to values. */
  datatype FieldRecord = FieldRecord(values: map<string, string>)

  /** The argument of a backend `get`: `{fields, filters, options}`. */
  datatype Request = Request(fields: seq<string>, filters: seq<Filter>, options: Option<GetOptions>)

  /** One call received by the backend. */
  datatype Call =
    | GetCall(request: Request)
    | CreateCall(record: FieldRecord)
    | DeleteCall

  /** The promise returned by a backend call, identified by that call's
      position in the log. */
  datatype Reply = Pending(call: nat)

  class DataExtensionSoap {
    /** Every call received so far, oldest first. */
    var log: seq<Call>

    constructor ()
      ensures log == []
    {
      log := [];
    }

    method Get(request: Request) returns (reply: Reply)
      modifies this
      ensures log == old(log) + [GetCall(request)]
      ensures reply == Pending(|old(log)|)
    {
      reply := Pending(|log|);
      log := log + [GetCall(request)];
    }

    method Create(record: FieldRecord) returns (reply: Reply)
      modifies this
      ensures log == old(log) + [CreateCall(record)]
      ensures reply == Pending(|old(log)|)
    {
      reply := Pending(|log|);
      log := log + [CreateCall(record)];
    }

    method Delete() returns (reply: Reply)
      modifies this
      ensures log == old(log) + [DeleteCall]
      ensures reply == Pending(|old(log)|)
    {
      reply := Pending(|log|);
      log := log + [DeleteCall];
    }
  }
}
