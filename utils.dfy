/**
  The helpers of lib/utils.ts: a percentage with a zero-total guard, text
  truncation with an ellipsis, and the null branches of the currency and date
  formatters. The locale formatting itself (`Intl.NumberFormat`,
  `toLocaleDateString`) is a parameter.
*/
module Utils {
  import opened Common

  /** `calculatePercentage(value, total)`. */
  function CalculatePercentage(value: real, total: real): (p: real)
    ensures total == 0.0 ==> p == 0.0
    ensures total != 0.0 ==> p * total == value * 100.0
  {
    if total == 0.0 then 0.0 else (value / total) * 100.0
  }

  /** The whole is 100 percent, and a part of a positive total lies between 0 and 100 percent. */
  lemma PercentageBounds(value: real, total: real)
    ensures total != 0.0 && value == total ==> CalculatePercentage(value, total) == 100.0
    ensures 0.0 <= value <= total && total > 0.0 ==> 0.0 <= CalculatePercentage(value, total) <= 100.0
  {
    if 0.0 <= value <= total && total > 0.0 {
      assert value / total <= 1.0;
    }
  }

  /** `text.substring(0, n)`: a negative end reads as 0, one past the length as the length. */
  function Substring(text: string, n: int): (r: string)
    ensures r == text[..if n < 0 then 0 else if n > |text| then |text| else n]
  {
    if n < 0 then "" else if n > |text| then text else text[..n]
  }

  /** `truncateText(text, length)`. */
  function TruncateText(text: string, length: int): (r: string)
    ensures |text| <= length ==> r == text
    ensures |text| > length ==> r == Substring(text, length) + "..."
    ensures |text| > length && length >= 0 ==> |r| == length + 3 && r[..length] == text[..length]
  {
    if |text| <= length then text else Substring(text, length) + "..."
  }

  /** A truncated text is at most `length` plus the ellipsis, and truncating it again changes nothing. */
  lemma TruncateIdempotent(text: string, length: nat)
    ensures |TruncateText(text, length)| <= length + 3
    ensures TruncateText(TruncateText(text, length), length) == TruncateText(text, length)
  {
    var once := TruncateText(text, length);
    if |text| > length {
      assert once[..length] == text[..length];
    }
  }

  /** `formatCurrency(amount)`: null and undefined show `$0.00`; any number goes to the formatter. */
  function FormatCurrency(amount: Option<real>, format: real -> string): (r: string)
    ensures amount.None? ==> r == "$0.00"
    ensures amount.Some? ==> r == format(amount.value)
  {
    if amount.None? then "$0.00" else format(amount.value)
  }

  /** `formatDate(dateString)`: null, undefined and the empty string show `Not set`. */
  function FormatDate(dateString: Option<string>, format: string -> string): (r: string)
    ensures !Truthy(dateString) ==> r == "Not set"
    ensures Truthy(dateString) ==> r == format(dateString.value)
  {
    if !Truthy(dateString) then "Not set" else format(dateString.value)
  }
}
