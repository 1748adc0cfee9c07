/**
 * Barcode format selection (components/Barcode.tsx): a price look-up code
 * becomes a QR code, a UPC number a `upc` linear barcode, and anything else
 * a CODE128 barcode. The drawing itself is done by foreign libraries and is
 * not part of this model.
 */
module Barcode {
  import opened Js

  /** `/^\d{4,5}$/`: a price look-up code. */
  predicate IsPlu(value: string): (r: bool)
    ensures r ==> !IsUpc(value) && 4 <= |value| <= 5
  {
    DigitsOfLength(value, 4, 5)
  }

  /** `/^\d{11,12}$/`: a UPC number. */
  predicate IsUpc(value: string): (r: bool)
    ensures r ==> |value| >= 11 && PadStart(value, 11, '0') == value
  {
    DigitsOfLength(value, 11, 12)
  }

  /** The linear formats handed to the barcode library. */
  datatype Format = Upc | Code128

  /** The library's name for a format. */
  function FormatName(f: Format): (r: string)
    ensures r == "upc" || r == "CODE128"
    ensures (r == "upc") <==> f == Upc
  {
    match f
    case Upc => "upc"
    case Code128 => "CODE128"
  }

  /** What is drawn: a QR code of a text, or a linear barcode of a text. */
  datatype Rendering = QrCode(text: string) | Linear(format: Format, text: string)

  /**
   * `renderBarcode`: the PLU test comes first and ends the function; a UPC
   * number is drawn padded on the left with zeros to 11 characters; every
   * other value is drawn as CODE128.
   */
  function RenderBarcode(value: string): (r: Rendering)
    ensures r.QrCode? <==> IsPlu(value)
    ensures (r.Linear? && r.format == Upc) <==> IsUpc(value)
    ensures (r.Linear? && r.format == Code128) <==> !IsPlu(value) && !IsUpc(value)
    ensures r.text == value
  {
    if IsPlu(value) then QrCode(value)
    else if IsUpc(value) then Linear(Upc, PadStart(value, 11, '0'))
    else Linear(Code128, value)
  }

  /** No value is both a PLU and a UPC number. */
  lemma PluAndUpcDisjoint(value: string)
    ensures !(IsPlu(value) && IsUpc(value))
  {
  }

  /** A UPC-matched value is at least 11 characters long, so the padding adds nothing. */
  lemma UpcPaddingIsIdentity(value: string)
    requires IsUpc(value)
    ensures PadStart(value, 11, '0') == value
  {
  }

  /** Exactly one of the three outcomes is chosen for every value. */
  lemma ExactlyOneFormat(value: string)
    ensures var r := RenderBarcode(value);
      (if r.QrCode? then 1 else 0) + (if r.Linear? && r.format == Upc then 1 else 0)
      + (if r.Linear? && r.format == Code128 then 1 else 0) == 1
  {
  }

  /** Worked examples of the three paths (QR code, `upc`, `CODE128`) and of the empty value. */
  lemma RenderExamples()
    ensures RenderBarcode("4011") == QrCode("4011")
    ensures RenderBarcode("04011").QrCode?
    ensures RenderBarcode("01234567890") == Linear(Upc, "01234567890")
    ensures RenderBarcode("012345") == Linear(Code128, "012345")
    ensures RenderBarcode("") == Linear(Code128, "")
  {
    assert IsPlu("4011");
    assert IsPlu("04011");
    assert IsUpc("01234567890");
    assert !IsPlu("012345") && !IsUpc("012345");
  }
}
