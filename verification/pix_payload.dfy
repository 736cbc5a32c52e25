/**
 * The mock PIX payment instructions a new payment carries: a fixed key, a
 * "QR code" payload that embeds the payer's id and the amount between fixed
 * fields, and a copy-paste payload that is the QR payload plus a fixed
 * four-character checksum. Real EMV encoding is not modelled.
 */
module PixPayload {
  import opened Wrappers

  const PixKey: string := "pix@example.com"
  const QrHeader: string := "00020126580014BR.GOV.BCB.PIX0136"
  const QrAmountFields: string := "520400005303986540"
  const QrTrailer: string := "5802BR5913Example Store6009SAO PAULO62070503***6304"
  const CopyPasteChecksum: string := "ABCD"

  /** The `pixQrCode` of a new payment of `amount` by `user`. */
  function QrCode(user: string, amount: string): (r: string)
    ensures |r| == |QrHeader| + |user| + |QrAmountFields| + |amount| + |QrTrailer|
    ensures r[..|QrHeader|] == QrHeader
    ensures r[|QrHeader|..|QrHeader| + |user|] == user
    ensures r[|QrHeader| + |user|..|QrHeader| + |user| + |QrAmountFields|] == QrAmountFields
    ensures r[|QrHeader| + |user| + |QrAmountFields|..|r| - |QrTrailer|] == amount
    ensures r[|r| - |QrTrailer|..] == QrTrailer
  {
    QrHeader + user + QrAmountFields + amount + QrTrailer
  }

  /**
   * The `pixCopyPaste` of a new payment, written as its own template; it is
   * the QR payload followed by the checksum.
   */
  function CopyPaste(user: string, amount: string): (r: string)
    ensures |r| == |QrCode(user, amount)| + |CopyPasteChecksum|
    ensures r[..|QrCode(user, amount)|] == QrCode(user, amount)
    ensures r[|QrCode(user, amount)|..] == CopyPasteChecksum
  {
    "00020126580014BR.GOV.BCB.PIX0136" + user + "520400005303986540" + amount
      + "5802BR5913Example Store6009SAO PAULO62070503***6304ABCD"
  }

  /** A sequence is the concatenation of the five pieces four cut points make of it. */
  lemma SplitFive(q: string, i: nat, j: nat, k: nat, l: nat)
    requires i <= j <= k <= l <= |q|
    ensures q == q[..i] + q[i..j] + q[j..k] + q[k..l] + q[l..]
  {
  }

  /**
   * Reads the payer id and the amount back out of a QR payload, given the
   * length of the id (the header's own length field fixes it at 36).
   */
  function ParseQr(qr: string, userLength: nat): (r: Option<(string, string)>)
    ensures r.Some? ==> |r.value.0| == userLength && qr == QrCode(r.value.0, r.value.1)
  {
    var fixed := |QrHeader| + userLength + |QrAmountFields| + |QrTrailer|;
    if |qr| < fixed then None
    else
      var amountStart := |QrHeader| + userLength + |QrAmountFields|;
      var amountEnd := |qr| - |QrTrailer|;
      var user := qr[|QrHeader|..|QrHeader| + userLength];
      var amount := qr[amountStart..amountEnd];
      if qr[..|QrHeader|] == QrHeader
         && qr[|QrHeader| + userLength..amountStart] == QrAmountFields
         && qr[amountEnd..] == QrTrailer
      then
        SplitFive(qr, |QrHeader|, |QrHeader| + userLength, amountStart, amountEnd);
        Some((user, amount))
      else
        None
  }

  /** Every QR payload a payment is created with reads back as its payer and amount. */
  lemma ParseQrRoundTrip(user: string, amount: string)
    ensures ParseQr(QrCode(user, amount), |user|) == Some((user, amount))
  {
  }
}
