/**
 * The product-creation modal: its form state, the change handlers of its
 * inputs, the submit check that opens the QR step, the reset on close and the
 * record handed to the parent once the QR code is generated.
 */
module ProductForm {
  import opened Wrappers
  import Text

  /** The form's state; `productoId` is a random UUID supplied by the caller of each reset. */
  datatype FormData = FormData(
    productoId: string,
    nombre: string,
    precio: real,
    cantidadExistente: real,
    categoria: int,
    descripcion: string,
    proveedor: string,
    qr_url: string,
    rack_id: int)

  /** The form as the modal starts it and as every close resets it. */
  function EmptyForm(productoId: string): FormData {
    FormData(productoId, "", 0.0, 0.0, 0, "", "", "", 0)
  }

  /** The inputs whose change handler is handleChange, by their `name` attribute. */
  datatype InputName = Nombre | Precio | CantidadExistente | Proveedor

  /** `parseFloat(value) || 0`: NaN (and zero) become 0, any other parsed number is kept. */
  function NumberOrZero(value: string): (r: real)
    ensures Text.ParseFloat(value) == None ==> r == 0.0
    ensures r != 0.0 ==> Text.ParseFloat(value) == Some(r)
    ensures Text.ParseFloat(value).Some? && Text.ParseFloat(value).value != 0.0 ==> r == Text.ParseFloat(value).value
  {
    match Text.ParseFloat(value)
    case None => 0.0
    case Some(v) => v
  }

  /** handleChange's update: only the named field changes; the numeric fields store the parsed number. */
  function ChangeField(f: FormData, name: InputName, value: string): (r: FormData)
    ensures r.productoId == f.productoId && r.categoria == f.categoria && r.descripcion == f.descripcion
    ensures r.qr_url == f.qr_url && r.rack_id == f.rack_id
    ensures r.nombre == (if name == Nombre then value else f.nombre)
    ensures r.proveedor == (if name == Proveedor then value else f.proveedor)
    ensures r.precio == (if name == Precio then NumberOrZero(value) else f.precio)
    ensures r.cantidadExistente == (if name == CantidadExistente then NumberOrZero(value) else f.cantidadExistente)
  {
    match name
    case Nombre => f.(nombre := value)
    case Precio => f.(precio := NumberOrZero(value))
    case CantidadExistente => f.(cantidadExistente := NumberOrZero(value))
    case Proveedor => f.(proveedor := value)
  }

  /** handleSubmit's check: a name, a positive price and a positive stock. */
  predicate SubmitAllowed(f: FormData) {
    f.nombre != "" && f.precio > 0.0 && f.cantidadExistente > 0.0
  }

  /** The mount effect's update: an id that is already there is kept. */
  function KeepOrFreshId(f: FormData, freshId: string): (r: FormData)
    ensures f.productoId != "" ==> r == f
    ensures f.productoId == "" ==> r == f.(productoId := freshId)
  {
    f.(productoId := if f.productoId != "" then f.productoId else freshId)
  }

  /**
   * The QR modal's effect as written: once it holds a frozen copy of the
   * record it computes the QR URL (`url`, built from that copy) and drops it,
   * so no callback ever receives a URL.
   */
  function QrEffectAsWritten(frozen: Option<FormData>, url: string): Option<string> {
    None
  }

  /** The effect as the create flow needs it: the URL of a frozen record is handed to the form's callback. */
  function QrEffectIntended(frozen: Option<FormData>, url: string): (handed: Option<string>)
    ensures handed.Some? <==> frozen.Some?
    ensures handed.Some? ==> handed.value == url
  {
    if frozen.Some? then Some(url) else None
  }

  class CreateProductModal {
    var formData: FormData
    /** The record kept for the QR step (`productoGenerado`). */
    var productoGenerado: Option<FormData>
    var isQRModalOpen: bool

    /** The modal's initial state. */
    constructor (freshId: string)
      ensures formData == EmptyForm(freshId) && productoGenerado == None && !isQRModalOpen
    {
      formData := EmptyForm(freshId);
      productoGenerado := None;
      isQRModalOpen := false;
    }

    /** The effect run once on mount. */
    method MountEffect(freshId: string)
      modifies this`formData
      ensures formData == KeepOrFreshId(old(formData), freshId)
    {
      formData := KeepOrFreshId(formData, freshId);
    }

    /** handleChange, for the inputs named by `name`. */
    method HandleChange(name: InputName, value: string)
      modifies this`formData
      ensures formData == ChangeField(old(formData), name, value)
    {
      formData := ChangeField(formData, name, value);
    }

    /** The category select's handler; `categoria` is the option value as parsed. */
    method SelectCategoria(categoria: int)
      modifies this`formData
      ensures formData == old(formData).(categoria := categoria)
    {
      formData := formData.(categoria := categoria);
    }

    /** The description textarea's handler. */
    method EditDescripcion(descripcion: string)
      modifies this`formData
      ensures formData == old(formData).(descripcion := descripcion)
    {
      formData := formData.(descripcion := descripcion);
    }

    /** The rack select's handler; `rackId` is the option value as parsed. */
    method SelectRack(rackId: int)
      modifies this`formData
      ensures formData == old(formData).(rack_id := rackId)
    {
      formData := formData.(rack_id := rackId);
    }

    /**
     * handleSubmit: an incomplete form only raises the alert (`alerted`) and
     * changes nothing; a complete one is kept for the QR step, which opens.
     */
    method HandleSubmit() returns (alerted: bool)
      modifies this`productoGenerado, this`isQRModalOpen
      ensures alerted <==> !SubmitAllowed(formData)
      ensures alerted ==> productoGenerado == old(productoGenerado) && isQRModalOpen == old(isQRModalOpen)
      ensures !alerted ==> productoGenerado == Some(formData) && isQRModalOpen
      ensures !alerted ==> QrModalShown()
    {
      if !SubmitAllowed(formData) {
        alerted := true;
        return;
      }
      alerted := false;
      productoGenerado := Some(formData);
      isQRModalOpen := true;
    }

    /**
     * handleClose: every field back to its default under a fresh id, and no
     * kept record. It leaves `isQRModalOpen` as it was, yet the QR step is off
     * the screen, because its rendering also requires a kept record.
     */
    method HandleClose(freshId: string)
      modifies this`formData, this`productoGenerado
      ensures formData == EmptyForm(freshId) && productoGenerado == None
      ensures !QrModalShown()
    {
      formData := EmptyForm(freshId);
      productoGenerado := None;
    }

    /** The QR modal's onClose: the QR modal closes and the form is reset as by handleClose. */
    method CloseQrModal(freshId: string)
      modifies this`isQRModalOpen, this`formData, this`productoGenerado
      ensures !isQRModalOpen && formData == EmptyForm(freshId) && productoGenerado == None
      ensures !QrModalShown()
    {
      isQRModalOpen := false;
      HandleClose(freshId);
    }

    /** handleQRGenerated: what is passed to onCreate is the current form with the QR URL filled in. */
    method HandleQRGenerated(qrUrl: string) returns (finalData: FormData)
      ensures finalData.qr_url == qrUrl
      ensures finalData.(qr_url := formData.qr_url) == formData
    {
      finalData := formData.(qr_url := qrUrl);
    }

    /**
     * The QR step completing with the corrected effect: the record handed to
     * onCreate, if any, is the current form with the generated URL.
     */
    method CompleteQrStep(url: string) returns (created: Option<FormData>)
      ensures productoGenerado.Some? ==> created == Some(formData.(qr_url := url))
      ensures productoGenerado.None? ==> created == None
    {
      var handed := QrEffectIntended(productoGenerado, url);
      if handed.Some? {
        var finalData := HandleQRGenerated(handed.value);
        created := Some(finalData);
      } else {
        created := None;
      }
    }

    /** The QR modal is on screen only while it is open and a record is kept. */
    function QrModalShown(): (shown: bool)
      reads this
      ensures shown ==> productoGenerado.Some?
    {
      isQRModalOpen && productoGenerado.Some?
    }
  }

  // ---------------------------------------------------------------------------
  // Properties

  /**
   * A price or stock typed as a whole number, as a whole number with a
   * decimal fraction (the price input steps by 0.01), or as a negated whole
   * number is stored as that number.
   */
  lemma TypedNumberStored(f: FormData, n: nat, fraction: string)
    requires Text.AllDigits(fraction)
    ensures ChangeField(f, Precio, Text.NatToString(n)).precio == n as real
    ensures ChangeField(f, CantidadExistente, Text.NatToString(n)).cantidadExistente == n as real
    ensures ChangeField(f, Precio, Text.NatToString(n) + "." + fraction).precio ==
            n as real + Text.FractionValue(fraction)
    ensures n as real <= ChangeField(f, Precio, Text.NatToString(n) + "." + fraction).precio < n as real + 1.0
    ensures ChangeField(f, Precio, "-" + Text.NatToString(n)).precio == -(n as real)
  {
    Text.ParseFloatOfNat(n);
    Text.ParseFloatOfDecimal(Text.NatToString(n), fraction);
    Text.DecimalValueOfNat(n, fraction);
    Text.ParseFloatOfNegatedNat(n);
    Text.FractionBelowOne(fraction);
  }

  /** Text with no digit in the price input stores 0, so the form can no longer be submitted. */
  lemma UnparsablePriceBlocksSubmit(f: FormData, value: string)
    requires forall i :: 0 <= i < |value| ==> !Text.IsDigit(value[i])
    ensures ChangeField(f, Precio, value).precio == 0.0
    ensures !SubmitAllowed(ChangeField(f, Precio, value))
  {
    Text.ParseFloatWithoutDigits(value);
  }

  /** A submitted price always came from a typed number that parses to something positive. */
  lemma SubmittedPriceParsed(f: FormData, value: string)
    requires SubmitAllowed(ChangeField(f, Precio, value))
    ensures Text.ParseFloat(value).Some? && Text.ParseFloat(value).value > 0.0
  {
  }

  /** As written, the QR step never hands a URL on, so handleQRGenerated and onCreate are never reached. */
  lemma QrUrlNeverHandedOn(frozen: Option<FormData>, url: string)
    ensures QrEffectAsWritten(frozen, url) == None
    ensures frozen.Some? ==> QrEffectAsWritten(frozen, url) != QrEffectIntended(frozen, url)
  {
  }

  /** A reset form never passes the submit check. */
  lemma ResetFormRejected(freshId: string)
    ensures !SubmitAllowed(EmptyForm(freshId))
  {
  }
}
