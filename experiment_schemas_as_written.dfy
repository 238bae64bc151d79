// The param-value field of `faculty/clients/experiment.py` as written, kept
// beside the corrected field of `ExperimentSchemas` that the model uses.

module ExperimentSchemasAsWritten {
  import opened Wrappers
  import opened Json
  import opened ExperimentModels
  import opened ExperimentSchemas

  /** The error Python raises when `field` is read before it is bound. */
  const UnboundFieldError := "UnboundLocalError: " + "local variable 'field' referenced before assignment"

  /** `_ParamFilterValueField._serialize` of `faculty/clients/experiment.py`
      as written: `self.make_error("unsupported_type")` builds the validation
      error without raising it, so the next line reads `field` unbound. */
  function SerialiseParamAsWritten(v: FilterValue): (r: Result<Json, string>)
    ensures r.Ok? <==> SerialiseAs(ParamValueField, v).Ok?
    ensures r.Ok? ==> r == SerialiseAs(ParamValueField, v)
    ensures r.Err? ==> r.error == UnboundFieldError
  {
    match v
    case VString(s) => Ok(JString(s))
    case VInt(i) => Ok(JInt(i))
    case VBool(b) => Ok(JInt(if b then 1 else 0))
    case _ => Err(UnboundFieldError)
  }

  /** A UUID, run status or date-time param value: the code as written
      escapes with `UnboundLocalError`, where the corrected field reports the
      `unsupported_type` validation error. */
  lemma ParamValueAsWrittenEscapes(v: FilterValue)
    requires v.VUuid? || v.VStatus? || v.VTime?
    ensures SerialiseParamAsWritten(v) == Err(UnboundFieldError)
    ensures SerialiseAs(ParamValueField, v) == Err(ParamValueError)
    ensures SerialiseParamAsWritten(v) != SerialiseAs(ParamValueField, v)
  {
    assert UnboundFieldError[0] == 'U' && ParamValueError[0] == 'P';
  }
}
