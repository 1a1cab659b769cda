/**
 * The small part of the plugin framework the provider relies on: tri-state
 * string attributes, diagnostics, decoding of plan/state/config data and the
 * write a lifecycle handler performs on the stored resource state.
 */
module Framework {

  /** A framework string attribute: null, unknown (not yet computed) or known. */
  datatype TfString = Null | Unknown | Known(s: string) {

    /** The framework's ValueString: the known string, and "" for null and unknown. */
    function ValueString(): (v: string)
      ensures Known? ==> v == s
      ensures !Known? ==> v == ""
    {
      if Known? then s else ""
    }
  }

  datatype Severity = Error | Warning

  /** A diagnostic, optionally attached to a root attribute of the schema. */
  datatype Diagnostic = Diagnostic(severity: Severity, attribute: string, summary: string, detail: string)

  /** An error attached to the root attribute `attribute`, with equal summary and detail. */
  function AttributeError(attribute: string, message: string): Diagnostic
  {
    Diagnostic(Error, attribute, message, message)
  }

  /** An error not attached to any attribute. */
  function GeneralError(summary: string, detail: string): Diagnostic
  {
    Diagnostic(Error, "", summary, detail)
  }

  predicate HasError(ds: seq<Diagnostic>)
  {
    exists i :: 0 <= i < |ds| && ds[i].severity == Error
  }

  /** What decoding a config, plan or state into a typed model yields: its diagnostics and the value. */
  datatype Decoding<+T> = Decoding(diagnostics: seq<Diagnostic>, value: T)

  /** What a lifecycle handler does to the stored state of its resource instance. */
  datatype StateEffect<+M> =
    | NoWrite        // the response state is left as the framework prepared it
    | Write(model: M) // resp.State.Set with this model
    | Remove         // resp.State.RemoveResource
}
