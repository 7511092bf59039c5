/**
 * The numeric text field of the front end (`NumberInput`): it holds text,
 * accepts only digit strings while typing, and on leaving the field reports a
 * number, clamped to optional bounds, and shows the bound it clamped to.
 * Numbers are integers here.
 */
module NumericInput {
  import opened Wrappers
  import opened Decimal

  /**
   * `handleBlur`: the value reported through `onChange` and the text held
   * afterwards. Empty text reports `min` (shown) or, without a minimum, 0
   * (text left empty); otherwise the parsed number is compared with `min`
   * first and `max` second. The text left is still a numeral or empty, and
   * when not empty it reads back as the value reported.
   */
  function Blur(text: string, min: Option<int>, max: Option<int>): (r: (int, string))
    requires Numeral(text)
    ensures Numeral(r.1)
    ensures r.1 != "" ==> ParseInt(r.1) == r.0
  {
    if text != "" then
      var n := ParseInt(text);
      if min.Some? && n < min.value then ParseIntString(min.value); (min.value, IntString(min.value))
      else if max.Some? && n > max.value then ParseIntString(max.value); (max.value, IntString(max.value))
      else (n, text)
    else if min.Some? then ParseIntString(min.value); (min.value, IntString(min.value))
    else (0, text)
  }

  /** Empty text reports the minimum and shows it, or without a minimum reports 0 and stays empty. */
  lemma BlurEmpty(min: Option<int>, max: Option<int>)
    ensures min.Some? ==> Blur("", min, max) == (min.value, IntString(min.value))
    ensures min.None? ==> Blur("", min, max) == (0, "")
  {
  }

  /**
   * Unless the bounds cross, the reported value is never below a given
   * minimum and never above a given maximum; the one exception to the
   * latter is empty text without a minimum, which reports 0 whatever the
   * maximum.
   */
  lemma BlurBounds(text: string, min: Option<int>, max: Option<int>)
    requires Numeral(text)
    ensures var (v, _) := Blur(text, min, max);
      && (min.Some? && (max.None? || min.value <= max.value) ==> v >= min.value)
      && (max.Some? && (min.Some? ==> min.value <= max.value) && (text != "" || min.Some?) ==> v <= max.value)
  {
  }

  /**
   * With crossed bounds (`max < min`) the minimum is checked first: a number
   * below the minimum reports the minimum, above the maximum, and any other
   * number above the maximum reports the maximum, below the minimum.
   */
  lemma BlurCrossedBounds(text: string, lo: int, hi: int)
    requires Numeral(text) && text != "" && hi < lo
    ensures ParseInt(text) < lo ==> Blur(text, Some(lo), Some(hi)).0 == lo > hi
    ensures ParseInt(text) >= lo ==> Blur(text, Some(lo), Some(hi)).0 == hi < lo
  {
  }

  /**
   * A number below the minimum reports the minimum and shows it; otherwise a
   * number above the maximum reports the maximum and shows it.
   */
  lemma BlurClamps(text: string, min: Option<int>, max: Option<int>)
    requires Numeral(text) && text != ""
    ensures min.Some? && ParseInt(text) < min.value ==>
      Blur(text, min, max) == (min.value, IntString(min.value))
    ensures !(min.Some? && ParseInt(text) < min.value) && max.Some? && ParseInt(text) > max.value ==>
      Blur(text, min, max) == (max.value, IntString(max.value))
  {
  }

  /** A number within the bounds is reported as parsed, and the text is left as typed. */
  lemma BlurInRange(text: string, min: Option<int>, max: Option<int>)
    requires Numeral(text) && text != ""
    requires min.Some? ==> min.value <= ParseInt(text)
    requires max.Some? ==> ParseInt(text) <= max.value
    ensures Blur(text, min, max) == (ParseInt(text), text)
  {
  }

  /**
   * Blurring twice is blurring once, when the bounds do not cross: the text
   * shown after clamping is read back as the bound it shows.
   */
  lemma BlurIdempotent(text: string, min: Option<int>, max: Option<int>)
    requires Numeral(text)
    requires min.Some? && max.Some? ==> min.value <= max.value
    ensures var (v, t) := Blur(text, min, max);
      Numeral(t) && Blur(t, min, max) == (v, t)
  {
    if min.Some? {
      ParseIntString(min.value);
    }
    if max.Some? {
      ParseIntString(max.value);
    }
  }

  /**
   * JavaScript truthiness of `bind?: number | null`: present and not 0. So a
   * bound value replaces the text exactly when its rendering is not "0".
   */
  predicate Truthy(bind: Option<int>)
    ensures Truthy(bind) <==> bind.Some? && IntString(bind.value) != "0"
  {
    assert IntString(0) == "0";
    bind.Some? && bind.value != 0
  }

  /** The component's held text, changed in place by its handlers. */
  class NumberInput {
    var text: string

    predicate Valid()
      reads this
    {
      Numeral(text)
    }

    constructor (defaultValue: int)
      ensures Valid() && text == IntString(defaultValue)
    {
      text := IntString(defaultValue);
      ParseIntString(defaultValue);
    }

    /** `handleChange`: typed text is kept only when it matches `^\d*$`. */
    method HandleChange(typed: string)
      requires Valid()
      modifies this
      ensures Valid() && text == if AllDigits(typed) then typed else old(text)
    {
      if AllDigits(typed) {
        text := typed;
      }
    }

    /** `handleBlur`; returns the value passed to `onChange`. */
    method HandleBlur(min: Option<int>, max: Option<int>) returns (reported: int)
      requires Valid()
      modifies this
      ensures Valid() && (reported, text) == Blur(old(text), min, max)
    {
      reported := 0;
      if text != "" {
        var n := ParseInt(text);
        if min.Some? && n < min.value {
          reported := min.value;
          text := IntString(min.value);
        } else if max.Some? && n > max.value {
          reported := max.value;
          text := IntString(max.value);
        } else {
          reported := n;
        }
      } else if min.Some? {
        reported := min.value;
        text := IntString(min.value);
      }
    }

    /** The `bind` effect: a truthy `bind` replaces the text by its rendering. */
    method OnBind(bind: Option<int>)
      requires Valid()
      modifies this
      ensures Valid() && text == if Truthy(bind) then IntString(bind.value) else old(text)
    {
      if Truthy(bind) {
        text := IntString(bind.value);
        ParseIntString(bind.value);
      }
    }
  }
}
