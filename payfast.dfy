/**
 * The checks a business's PayFast merchant credentials go through before they
 * are saved. A missing value is None; the empty string counts as missing too.
 */
module Payfast {
  import opened Common
  import opened Strings

  predicate Present(v: Option<string>) { v.Some? && v.value != "" }

  /**
   * `validate_payfast_format`: None when the credentials pass, else the message
   * for the first rule they break. The key length is taken as given.
   */
  function ValidateFormat(merchantId: Option<string>, merchantKey: Option<string>): (problem: Option<string>)
    ensures problem.None? <==>
      Present(merchantId) && Present(merchantKey) && IsDigits(merchantId.value) && |merchantKey.value| >= 10
    ensures !(Present(merchantId) && Present(merchantKey)) ==> problem == Some("Merchant ID and Key are required.")
    ensures Present(merchantId) && Present(merchantKey) && !IsDigits(merchantId.value) ==>
      problem == Some("Merchant ID must be numeric.")
    ensures Present(merchantId) && Present(merchantKey) && IsDigits(merchantId.value) && |merchantKey.value| < 10 ==>
      problem == Some("Merchant Key looks invalid.")
  {
    if !Present(merchantId) || !Present(merchantKey) then Some("Merchant ID and Key are required.")
    else if !IsDigits(merchantId.value) then Some("Merchant ID must be numeric.")
    else if |merchantKey.value| < 10 then Some("Merchant Key looks invalid.")
    else None
  }

  /** `verify_payfast_credentials`: the same rules, with the key measured after stripping white space. */
  function VerifyCredentials(merchantId: Option<string>, merchantKey: Option<string>): (ok: bool)
    ensures ok <==>
      Present(merchantId) && Present(merchantKey) && IsDigits(merchantId.value) && |Strip(merchantKey.value)| >= 10
  {
    if !Present(merchantId) || !Present(merchantKey) then false
    else if !IsDigits(merchantId.value) then false
    else |Strip(merchantKey.value)| >= 10
  }

  /** Credentials the verification accepts also pass the format check. */
  lemma VerifiedIsWellFormed(merchantId: Option<string>, merchantKey: Option<string>)
    requires VerifyCredentials(merchantId, merchantKey)
    ensures ValidateFormat(merchantId, merchantKey).None?
  {
  }

  /** `n` spaces. */
  function Spaces(n: nat): (r: string)
    ensures |r| == n && forall i :: 0 <= i < n ==> r[i] == ' '
  {
    if n == 0 then "" else Spaces(n - 1) + " "
  }

  /** Stripping text padded on the left with spaces leaves the padded character. */
  lemma {:induction false} StripPadded(n: nat, c: char)
    requires !IsSpace(c)
    ensures Strip(Spaces(n) + [c]) == [c]
  {
    var s := Spaces(n) + [c];
    var r := TrimLeft(s);
    assert s[n] == c;
    assert r == [c];
  }

  /** The converse fails: a key padded with white space to ten characters passes the format check only. */
  lemma PaddedKeyPassesFormatOnly(merchantId: string)
    requires IsDigits(merchantId)
    ensures ValidateFormat(Some(merchantId), Some(Spaces(9) + "k")).None?
    ensures !VerifyCredentials(Some(merchantId), Some(Spaces(9) + "k"))
  {
    StripPadded(9, 'k');
  }
}
