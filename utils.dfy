/** Phone-number and referral-code rules shared by the payment and account
    code: normalisation to the international "254" form, the accepted
    number shapes, carrier detection and referral-code generation. */
module Utils {
  import opened Common

  datatype Provider = Safaricom | Airtel | Telkom

  const ReferralAlphabet := "ABCDEFGHJKLMNPQRSTUVWXYZ23456789"
  const ReferralCodeLength: nat := 8

  /** Replaces a leading "0" by "254", prefixes "254" to any other number
      that lacks it, and leaves a "254…" number alone. */
  function FormatPhoneNumber(phone: string): (r: string)
    ensures StartsWith(r, "254")
    ensures StartsWith(phone, "254") ==> r == phone
    ensures r[3..] == if StartsWith(phone, "0") then phone[1..]
                      else if StartsWith(phone, "254") then phone[3..]
                      else phone
  {
    if StartsWith(phone, "0") then
      assert phone[0] == '0' by { assert phone[..1][0] == phone[0]; }
      "254" + phone[1..]
    else if !StartsWith(phone, "254") then "254" + phone
    else phone
  }

  /** Normalising twice is normalising once. */
  lemma FormatIdempotent(phone: string)
    ensures FormatPhoneNumber(FormatPhoneNumber(phone)) == FormatPhoneNumber(phone)
  {
    var once := FormatPhoneNumber(phone);
    assert !StartsWith(once, "0") by { assert once[0] == '2'; }
  }

  /** `/^(07|01)[0-9]{8}$/`. */
  predicate LocalForm(s: string) {
    |s| == 10 && s[0] == '0' && (s[1] == '7' || s[1] == '1') && AllDigits(s[2..])
  }

  /** `/^254(7|1)[0-9]{8}$/`. */
  predicate InternationalForm(s: string) {
    |s| == 12 && s[..3] == "254" && (s[3] == '7' || s[3] == '1') && AllDigits(s[4..])
  }

  function IsValidPhoneNumber(phone: string): (b: bool)
    ensures b ==> AllDigits(phone) && (|phone| == 10 || |phone| == 12)
    ensures b <==> LocalForm(phone) || InternationalForm(phone)
  {
    LocalForm(phone) || InternationalForm(phone)
  }

  /** A valid number is still valid after normalisation, and is then in
      the twelve-digit international form with the same subscriber digits. */
  lemma FormatKeepsValidity(phone: string)
    requires IsValidPhoneNumber(phone)
    ensures InternationalForm(FormatPhoneNumber(phone))
    ensures FormatPhoneNumber(phone)[4..] == phone[|phone| - 8..]
  {
    var f := FormatPhoneNumber(phone);
    if LocalForm(phone) {
      assert f == "254" + phone[1..];
      assert f[4..] == phone[2..];
    } else {
      assert f == phone;
    }
  }

  /** The carrier of a number, decided on the normalised number. */
  function DetectProvider(phone: string): (r: Provider)
    ensures r == Safaricom <==> StartsWith(FormatPhoneNumber(phone), "2547")
    ensures r == Airtel <==> StartsWith(FormatPhoneNumber(phone), "2541")
  {
    var formatted :=
      if StartsWith(phone, "0") then "254" + phone[1..]
      else if !StartsWith(phone, "254") then "254" + phone
      else phone;
    if StartsWith(formatted, "2547") then Safaricom
    else if StartsWith(formatted, "2541") then Airtel
    else Telkom
  }

  /** No number that passes validation is ever attributed to Telkom. */
  lemma ValidNumbersAreNeverTelkom(phone: string)
    requires IsValidPhoneNumber(phone)
    ensures DetectProvider(phone) != Telkom
  {
    FormatKeepsValidity(phone);
    var f := FormatPhoneNumber(phone);
    assert f[..4] == f[..3] + [f[3]];
  }

  /** Eight characters, each picked by one `Math.random()` draw from an
      alphabet without the look-alikes I, O, 0 and 1. */
  method GenerateReferralCode(random: nat -> Draw) returns (code: string)
    ensures |code| == ReferralCodeLength
    ensures forall i :: 0 <= i < |code| ==>
      code[i] == ReferralAlphabet[ScaledDraw(random(i), |ReferralAlphabet|)]
    ensures forall i :: 0 <= i < |code| ==>
      code[i] in ReferralAlphabet && code[i] !in "IO01"
  {
    code := "";
    var i := 0;
    while i < ReferralCodeLength
      invariant 0 <= i <= ReferralCodeLength
      invariant |code| == i
      invariant forall j :: 0 <= j < i ==>
        code[j] == ReferralAlphabet[ScaledDraw(random(j), |ReferralAlphabet|)]
      invariant forall j :: 0 <= j < i ==> code[j] in ReferralAlphabet && code[j] !in "IO01"
    {
      var c := ReferralAlphabet[ScaledDraw(random(i), |ReferralAlphabet|)];
      code := code + [c];
      i := i + 1;
    }
  }
}
