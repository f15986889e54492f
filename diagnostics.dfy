/** The diagnostics the provider reports to Terraform, and what an operation
    hands back: the diagnostics it appended, the state it wrote, or a Go
    runtime panic. Every diagnostic the core appends is an error, so a
    non-empty list is a failed operation (`HasError`). */
module Diagnostics {
  import opened Results

  /** `diag.NewErrorDiagnostic(summary, detail)` */
  datatype Diagnostic = Diagnostic(summary: string, detail: string)

  // The summaries used by the controllers and reads.
  const ClientError: string := "Client Error"
  const DatabaseNotFound: string := "Database Not Found"
  const CollectionNotFound: string := "Collection Not Found"
  const IndexNotFound: string := "Index not found"
  const InvalidConfiguration: string := "Invalid configuration"
  const InvalidJsonInput: string := "Invalid JSON Input"
  const DatabaseContainsData: string := "Database Contains Data"
  const CollectionNotEmpty: string := "Collection Not Empty"
  const DeletionForbidden: string := "Deletion Forbidden"
  const InvalidImportId: string := "Invalid Import ID"
  const MongoClientError: string := "Mongo Client Error"
  const UnexpectedError: string := "Unexpected Error"
  const InvalidInputValue: string := "Invalid Input Value"

  /** The result of a read (`dataSourceRead`, `resourceRead`): the
      diagnostics it returned, or the index it read out of range when it
      panicked. */
  datatype Outcome = Completed(diags: seq<Diagnostic>) | Panicked(position: nat)

  /** The response of a resource operation: the state it wrote (`None` when
      it wrote none) and its diagnostics, or a panic. */
  datatype Response<M> = Response(state: Option<M>, diags: seq<Diagnostic>) | Crashed(position: nat)

  /** A response with no diagnostics. */
  predicate Succeeded<M>(r: Response<M>) {
    r.Response? && r.diags == []
  }

  /** The tail of the Create, Read and Update controllers: the model is
      written to the state only when the read reported no error. */
  function Finish<M>(data: M, o: Outcome): (r: Response<M>)
    ensures Succeeded(r) <==> o == Completed([])
    ensures r.Response? && r.state.Some? ==> Succeeded(r) && r.state.value == data
    ensures o.Panicked? <==> r.Crashed?
  {
    match o
    case Panicked(k) => Crashed(k)
    case Completed(ds) => if ds == [] then Response(Some(data), []) else Response(None, ds)
  }

  /** A failed step of a controller: one error, and no state written. */
  function Fail<M>(summary: string, detail: string): Response<M> {
    Response(None, [Diagnostic(summary, detail)])
  }

  function DecimalDigit(n: nat): char
    requires n < 10
  {
    ('0' as int + n) as char
  }

  function FormatNat(n: nat): string {
    if n < 10 then [DecimalDigit(n)] else FormatNat(n / 10) + [DecimalDigit(n % 10)]
  }

  /** `fmt.Sprintf("%d", n)` */
  function FormatInt(n: int): string {
    if n < 0 then "-" + FormatNat(-n) else FormatNat(n)
  }
}
