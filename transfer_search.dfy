/** The search form: the query being edited, which queries it lets
    through, and which receiving providers it offers. */
module TransferSearch {
  import opened Wrappers
  import opened Domain

  /** The query the form starts with: nothing selected. */
  const EmptyQuery: TransferQuery := TransferQuery("", "", "")

  /** `isFormValid`: all three fields chosen, sender and receiver distinct. */
  predicate IsFormValid(q: TransferQuery) {
    q.fromPsp != "" && q.toPsp != "" && q.currency != "" && q.fromPsp != q.toPsp
  }

  /** The guard inside `handleSearch`: all three fields chosen. */
  predicate AllFieldsChosen(q: TransferQuery) {
    q.fromPsp != "" && q.toPsp != "" && q.currency != ""
  }

  /** The submit button is enabled only for a valid form while neither
      the search nor the reference data is loading. */
  predicate SubmitEnabled(q: TransferQuery, isLoading: bool, dataLoading: bool) {
    IsFormValid(q) && !isLoading && !dataLoading
  }

  /** A valid form always passes the guard; the converse fails exactly when
      the same provider is chosen at both ends. */
  lemma ValidityAndGuard(q: TransferQuery)
    ensures IsFormValid(q) ==> AllFieldsChosen(q)
    ensures AllFieldsChosen(q) && !IsFormValid(q) <==> AllFieldsChosen(q) && q.fromPsp == q.toPsp
    ensures !IsFormValid(EmptyQuery) && !AllFieldsChosen(EmptyQuery)
  {
  }

  /** The options of the "To" select: the providers other than the chosen
      sender, in their original order. */
  function ToOptions(psps: seq<PSP>, fromPsp: string): (r: seq<PSP>)
    ensures |r| <= |psps|
    ensures forall p :: p in r <==> p in psps && p.id != fromPsp
    decreases |psps|
  {
    if psps == [] then []
    else if psps[0].id != fromPsp then [psps[0]] + ToOptions(psps[1..], fromPsp)
    else ToOptions(psps[1..], fromPsp)
  }

  /** Filtering distributes over concatenation: together with the
      one-element case this says the options keep the original order. */
  lemma {:induction false} ToOptionsAppend(a: seq<PSP>, b: seq<PSP>, fromPsp: string)
    ensures ToOptions(a + b, fromPsp) == ToOptions(a, fromPsp) + ToOptions(b, fromPsp)
    decreases |a|
  {
    if a == [] {
      assert a + b == b;
    } else {
      assert (a + b)[1..] == a[1..] + b;
      ToOptionsAppend(a[1..], b, fromPsp);
    }
  }

  /** Every provider the "To" select offers differs from the sender. */
  lemma ChosenReceiverDiffers(psps: seq<PSP>, q: TransferQuery, p: PSP)
    requires p in ToOptions(psps, q.fromPsp) && p.id == q.toPsp
    ensures q.fromPsp != q.toPsp
  {
  }

  /** The form's state: the query being edited. */
  class SearchForm {
    var query: TransferQuery

    constructor ()
      ensures query == EmptyQuery && !IsFormValid(query)
    {
      query := EmptyQuery;
    }

    /** Choosing a sender changes the sender only; the receiver is kept
        even when it is now the same provider. */
    method SelectFrom(id: string)
      modifies this
      ensures query == old(query).(fromPsp := id)
    {
      query := query.(fromPsp := id);
    }

    /** Choosing a receiver changes the receiver only. */
    method SelectTo(id: string)
      modifies this
      ensures query == old(query).(toPsp := id)
    {
      query := query.(toPsp := id);
    }

    /** Choosing a currency changes the currency only. */
    method SelectCurrency(id: string)
      modifies this
      ensures query == old(query).(currency := id)
    {
      query := query.(currency := id);
    }

    /** `handleSearch`: the query goes to `onSearch` only when all three
        fields are chosen (sender and receiver may coincide here). */
    method HandleSearch() returns (submitted: Option<TransferQuery>)
      ensures submitted.Some? <==> AllFieldsChosen(query)
      ensures submitted.Some? ==> submitted.value == query
    {
      if query.fromPsp != "" && query.toPsp != "" && query.currency != "" {
        submitted := Some(query);
      } else {
        submitted := None;
      }
    }

    /** A click on the submit button: nothing happens while it is
        disabled, so whatever it submits has distinct, chosen providers. */
    method ClickSubmit(isLoading: bool, dataLoading: bool) returns (submitted: Option<TransferQuery>)
      ensures submitted.Some? <==> SubmitEnabled(query, isLoading, dataLoading)
      ensures submitted.Some? ==> submitted.value == query && IsFormValid(submitted.value)
    {
      if SubmitEnabled(query, isLoading, dataLoading) {
        submitted := HandleSearch();
      } else {
        submitted := None;
      }
    }
  }

  /** Choosing a receiver and then the same provider as sender leaves the
      form with equal ends, which the form then refuses to submit. */
  method SenderAfterReceiver(id: string, currency: string) returns (form: SearchForm)
    requires id != "" && currency != ""
    ensures form.query == TransferQuery(id, id, currency)
    ensures AllFieldsChosen(form.query) && !IsFormValid(form.query)
  {
    form := new SearchForm();
    form.SelectCurrency(currency);
    form.SelectTo(id);
    form.SelectFrom(id);
  }
}
