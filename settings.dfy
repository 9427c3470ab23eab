/**
 * The flat options document the options menu persists under "userOptions":
 * attribute name -> stored value. Storage and JSON are not modelled; the
 * document is a map, and "nothing stored" is None.
 */
module Settings {
  import opened Wrappers

  /** A stored entry: a key or mouse binding, or a slider value. */
  datatype StoredValue =
    | Binding(code: string, key: string, isMouse: bool)
    | Number(value: real)

  type Options = map<string, StoredValue>

  /** The text a binding label shows: the key, prefixed by "Mouse " for a mouse button. */
  function LabelText(b: StoredValue): string
    requires b.Binding?
  {
    if b.isMouse then "Mouse " + b.key else b.key
  }

  /** The number a string of decimal digits denotes, most significant digit first. */
  function DigitsValue(s: string): nat
    decreases |s|
  {
    if s == [] then 0
    else
      var d := (s[|s| - 1] as int) - ('0' as int);
      DigitsValue(s[..|s| - 1]) * 10 + (if 0 <= d <= 9 then d else 0)
  }

  /**
   * Decimal text of a mouse button number, as string concatenation renders it:
   * digits only, no leading zero, and they denote the number.
   */
  function DecimalText(n: nat): (s: string)
    ensures |s| >= 1
    ensures forall i :: 0 <= i < |s| ==> '0' <= s[i] <= '9'
    ensures n > 0 ==> s[0] != '0'
    ensures DigitsValue(s) == n
    decreases n
  {
    var d := [(('0' as int) + n % 10) as char];
    if n < 10 then d
    else
      var p := DecimalText(n / 10);
      assert (p + d)[..|p + d| - 1] == p;
      p + d
  }

  /** Distinct button numbers are written differently. */
  lemma DecimalTextInjective(a: nat, b: nat)
    requires DecimalText(a) == DecimalText(b)
    ensures a == b
  {
    assert DigitsValue(DecimalText(a)) == a;
  }

  /**
   * saveChange: replace one attribute of the stored document. When nothing is
   * stored, nothing is written.
   */
  function SaveChange(store: Option<Options>, attr: string, v: StoredValue): (r: Option<Options>)
    ensures r.Some? <==> store.Some?
    ensures r.Some? ==> r.value.Keys == store.value.Keys + {attr}
    ensures r.Some? ==> r.value[attr] == v
    ensures r.Some? ==> forall k :: k in store.value && k != attr ==> r.value[k] == store.value[k]
  {
    match store
    case None => None
    case Some(opts) => Some(opts[attr := v])
  }

  /**
   * The text a label shows for a stored entry: a binding's label text; an
   * entry that is not a binding has no key, and the label is left empty.
   */
  function EntryLabel(v: StoredValue): (t: string)
    ensures v.Binding? ==> t == LabelText(v)
    ensures v.Number? ==> t == ""
  {
    if v.Binding? then LabelText(v) else ""
  }

  /** The label loadValuesFromStorage shows for attribute attr; None where the document has no entry (loading fails there). */
  function StoredLabel(opts: Options, attr: string): (r: Option<string>)
    ensures r.Some? <==> attr in opts
    ensures r.Some? ==> r.value == EntryLabel(opts[attr])
  {
    if attr in opts then Some(EntryLabel(opts[attr])) else None
  }

  /** Saving a binding and then reloading from storage shows the label the rebinding just set. */
  lemma SavedBindingReloads(opts: Options, attr: string, b: StoredValue)
    requires b.Binding?
    ensures SaveChange(Some(opts), attr, b).Some?
    ensures StoredLabel(SaveChange(Some(opts), attr, b).value, attr) == Some(LabelText(b))
  {
  }

  /** Saving one attribute leaves the reloaded label of every other attribute as it was. */
  lemma SaveKeepsOtherLabels(opts: Options, attr: string, v: StoredValue, other: string)
    requires other != attr
    ensures SaveChange(Some(opts), attr, v).Some?
    ensures StoredLabel(SaveChange(Some(opts), attr, v).value, other) == StoredLabel(opts, other)
  {
  }
}
