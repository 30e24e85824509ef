/** The state of the transaction screen (screens/transaction.js): the ledger list,
    replaced on load, add and delete, and the key of the expanded row. Each server
    interaction is one method whose server answers are parameters. */
module TransactionScreen {
  import opened Wrappers
  import opened Transactions

  /** The answer to `GET /transactions/{user}`: the records with, positionally, the
      outcome of each record's category-name request; a non-ok response; or an
      exception anywhere in the load. */
  datatype ListReply = ListOk(records: seq<Record>, lookups: seq<Lookup>) | ListNotOk | ListThrew

  /** The answer to `POST /transactions`: the created record, a rejection with the
      response text, or an exception. */
  datatype CreateReply = Created(record: Record) | CreateRejected(text: string) | CreateThrew

  /** The answer to `DELETE /transactions/{id}`: success, a rejection whose body may
      carry a message, or an exception (including a body that is not JSON). */
  datatype DeleteReply = Deleted | DeleteRejected(message: Option<string>) | DeleteThrew

  datatype DeleteRequest = DeleteRequest(id: Option<int>)

  datatype LoadOutcome = Loaded | LoadFailed(alert: string)
  datatype AddOutcome = Added(entry: Entry) | AddFailed(serverText: Option<string>)
  datatype DeleteOutcome = Removed | NotFound | DeleteFailed(alert: string)

  const FetchFailedAlert: string := "Failed to fetch transactions."
  const SomethingWrongAlert: string := "Something went wrong."
  const DeleteFailedAlert: string := "Failed to delete transaction."
  const DeleteWentWrongAlert: string := "Something went wrong while deleting the transaction."

  /** `responseData.message || "Failed to delete transaction."`: an empty message is falsy. */
  function RejectionAlert(message: Option<string>): (alert: string)
    ensures alert != ""
    ensures message.Some? && message.value != "" ==> alert == message.value
    ensures !(message.Some? && message.value != "") ==> alert == DeleteFailedAlert
  {
    match message
    case Some(m) => if m != "" then m else DeleteFailedAlert
    case None => DeleteFailedAlert
  }

  class Screen {
    var transactions: seq<Entry>
    var expanded: Option<Key>

    /** The list is always newest first. */
    ghost predicate Valid()
      reads this
    {
      SortedDesc(transactions)
    }

    constructor ()
      ensures Valid()
      ensures transactions == [] && expanded == None
    {
      transactions := [];
      expanded := None;
    }

    /** `fetchTransactions`: on an ok response the list becomes the reconciled
        records, newest first; otherwise it is left as it was. */
    method FetchTransactions(reply: ListReply) returns (outcome: LoadOutcome)
      requires Valid()
      requires reply.ListOk? ==> |reply.lookups| == |reply.records|
      modifies this`transactions
      ensures Valid()
      ensures outcome.Loaded? <==> reply.ListOk?
      ensures reply.ListOk? ==> transactions == SortByDate(ReconcileAll(reply.records, reply.lookups))
      ensures reply.ListNotOk? ==> outcome == LoadFailed(FetchFailedAlert)
      ensures reply.ListThrew? ==> outcome == LoadFailed(SomethingWrongAlert)
      ensures !reply.ListOk? ==> transactions == old(transactions)
    {
      match reply {
        case ListOk(records, lookups) =>
          transactions := SortByDate(ReconcileAll(records, lookups));
          outcome := Loaded;
        case ListNotOk =>
          outcome := LoadFailed(FetchFailedAlert);
        case ListThrew =>
          outcome := LoadFailed(SomethingWrongAlert);
      }
    }

    /** `handleAddTransaction`: builds and sends the create request; on success the
        server's record, labelled and keyed, is prepended and the list re-sorted,
        which puts it before every existing entry of the same date. `lookup` is the
        outcome of the category-name request, issued only when `AddLooksUpCategory`. */
    method HandleAddTransaction(form: Form, reply: CreateReply, lookup: Lookup)
      returns (request: CreateRequest, outcome: AddOutcome)
      requires Valid()
      modifies this`transactions
      ensures Valid()
      ensures request == NewTransactionRequest(form)
      ensures outcome.Added? <==> reply.Created? && reply.record.id.Some?
      ensures outcome.Added? ==> Some(outcome.entry) == AddedEntry(form, reply.record, lookup)
      ensures outcome.Added? ==> transactions == SortByDate([outcome.entry] + old(transactions))
      ensures outcome.Added? ==> transactions == Insert(outcome.entry, old(transactions))
      ensures reply.CreateRejected? ==> outcome == AddFailed(Some(reply.text))
      ensures !reply.CreateRejected? && !outcome.Added? ==> outcome == AddFailed(None)
      ensures !outcome.Added? ==> transactions == old(transactions)
    {
      request := NewTransactionRequest(form);
      match reply {
        case Created(record) =>
          var entry := AddedEntry(form, record, lookup);
          if entry.Some? {
            PrependThenSort(entry.value, transactions);
            transactions := SortByDate([entry.value] + transactions);
            outcome := Added(entry.value);
          } else {
            outcome := AddFailed(None);
          }
        case CreateRejected(text) =>
          outcome := AddFailed(Some(text));
        case CreateThrew =>
          outcome := AddFailed(None);
      }
    }

    /** `deleteTransaction`: finds the first entry with the key; when there is none
        nothing is sent and nothing changes. Otherwise its id is sent for deletion,
        and only on the server's success are all entries with that key filtered out. */
    method DeleteTransaction(key: Key, reply: DeleteReply)
      returns (request: Option<DeleteRequest>, outcome: DeleteOutcome)
      requires Valid()
      modifies this`transactions
      ensures Valid()
      ensures FindByKey(old(transactions), key).None? ==>
        request == None && outcome == NotFound && transactions == old(transactions)
      ensures FindByKey(old(transactions), key).Some? ==>
        request == Some(DeleteRequest(old(transactions)[FindByKey(old(transactions), key).value].record.id))
      ensures outcome == Removed <==> FindByKey(old(transactions), key).Some? && reply.Deleted?
      ensures outcome == Removed ==> transactions == WithoutKey(old(transactions), key)
      ensures outcome != Removed ==> transactions == old(transactions)
      ensures FindByKey(old(transactions), key).Some? && reply.DeleteRejected? ==>
        outcome == DeleteFailed(RejectionAlert(reply.message))
      ensures FindByKey(old(transactions), key).Some? && reply.DeleteThrew? ==>
        outcome == DeleteFailed(DeleteWentWrongAlert)
    {
      var found := FindByKey(transactions, key);
      if found.None? {
        request := None;
        outcome := NotFound;
        return;
      }
      request := Some(DeleteRequest(transactions[found.value].record.id));
      match reply {
        case Deleted =>
          WithoutKeySorted(transactions, key);
          transactions := WithoutKey(transactions, key);
          outcome := Removed;
        case DeleteRejected(message) =>
          outcome := DeleteFailed(RejectionAlert(message));
        case DeleteThrew =>
          outcome := DeleteFailed(DeleteWentWrongAlert);
      }
    }

    /** `handleExpandTransaction`: pressing the expanded row collapses it, pressing any
        other row expands that one. */
    method HandleExpandTransaction(key: Key)
      modifies this`expanded
      ensures old(expanded) == Some(key) ==> expanded == None
      ensures old(expanded) != Some(key) ==> expanded == Some(key)
    {
      expanded := if expanded == Some(key) then None else Some(key);
    }
  }
}
