/** The "register operation" dialog: its form state, validity, total and submit. */
module Operation {
  import opened Common

  datatype OperationType = Buy | Sell

  /** `OperationFormData`. */
  datatype OperationForm = OperationForm(asset: string, opType: OperationType, quantity: real, price: real)

  const EmptyOperation := OperationForm("", Buy, 0.0, 0.0)

  /** `isFormValid`: an asset chosen and a positive quantity and price. */
  predicate IsFormValid(f: OperationForm)
    ensures IsFormValid(f) ==> f.quantity * f.price > 0.0
    ensures IsFormValid(f) ==> f != EmptyOperation
  {
    f.asset != "" && f.quantity > 0.0 && f.price > 0.0
  }

  /** The "total of the operation" box: shown only for a valid form, with quantity times price. */
  function OperationTotal(f: OperationForm): (total: Option<real>)
    ensures total.Some? <==> IsFormValid(f)
    ensures total.Some? ==> total.value == f.quantity * f.price && total.value > 0.0
  {
    if IsFormValid(f) then Some(f.quantity * f.price) else None
  }

  /** The submit button's label. */
  function SubmitLabel(t: OperationType): (caption: string)
    ensures caption == "Comprar" <==> t == Buy
    ensures caption == "Vender" <==> t == Sell
  {
    LabelsDiffer();
    match t
    case Buy => "Comprar"
    case Sell => "Vender"
  }

  /** The two labels are different strings. */
  lemma LabelsDiffer()
    ensures "Comprar" != "Vender"
  {
    assert "Comprar"[0] != "Vender"[0];
  }

  /** `parseFloat(text) || 0`: a number other than 0 is kept, anything else becomes 0. */
  function NumberOrZero(parsed: Option<real>): (r: real)
    ensures parsed.None? ==> r == 0.0
    ensures parsed.Some? ==> r == parsed.value
  {
    parsed.GetOr(0.0)
  }

  /** The form after a reset can not be submitted. */
  lemma ResetFormIsInvalid()
    ensures !IsFormValid(EmptyOperation) && OperationTotal(EmptyOperation).None?
  {
  }

  /** The dialog's state. `submitted` is the data handed to the `onSubmit` callback, in call order;
      `hasOnSubmit` says whether the caller passed one. */
  class OperationModal {
    const hasOnSubmit: bool
    var open: bool
    var form: OperationForm
    var submitted: seq<OperationForm>

    constructor (hasOnSubmit: bool)
      ensures this.hasOnSubmit == hasOnSubmit && !open && form == EmptyOperation && submitted == []
    {
      this.hasOnSubmit := hasOnSubmit;
      open, form, submitted := false, EmptyOperation, [];
    }

    /** `handleSubmit`: the callback sees the form as filled in, then the dialog closes and the
        form is reset. */
    method HandleSubmit()
      modifies this
      ensures submitted == old(submitted) + (if hasOnSubmit then [old(form)] else [])
      ensures !open && form == EmptyOperation && !IsFormValid(form)
    {
      if hasOnSubmit {
        submitted := submitted + [form];
      }
      open := false;
      form := EmptyOperation;
    }

    /** The asset select's `onValueChange`. */
    method SelectAsset(value: string)
      modifies this`form
      ensures form == old(form).(asset := value)
    {
      form := form.(asset := value);
    }

    /** The operation type select's `onValueChange`. */
    method SelectType(value: OperationType)
      modifies this`form
      ensures form == old(form).(opType := value)
    {
      form := form.(opType := value);
    }

    /** The quantity input's `onChange`. */
    method ChangeQuantity(text: string, parseFloat: Parser)
      modifies this`form
      ensures form == old(form).(quantity := NumberOrZero(parseFloat(text)))
    {
      form := form.(quantity := NumberOrZero(parseFloat(text)));
    }

    /** The price input's `onChange`. */
    method ChangePrice(text: string, parseFloat: Parser)
      modifies this`form
      ensures form == old(form).(price := NumberOrZero(parseFloat(text)))
    {
      form := form.(price := NumberOrZero(parseFloat(text)));
    }
  }
}
