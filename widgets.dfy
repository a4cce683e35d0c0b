/** The widget cells the form keeps per key path: a text Entry, a BooleanVar behind a
    checkbox, or any other object with a `get()` method. */
module Widgets {
  import opened Outcomes
  import opened JsonValues

  datatype Widget =
    | Entry(text: string)
    | BooleanVar(value: Json)
    | OtherWidget(value: Json)
  {
    /** `widget.get()`: an Entry gives its text, the other cells the value they hold. */
    function CurrentValue(): Json {
      match this
      case Entry(t) => JStr(t)
      case BooleanVar(v) => v
      case OtherWidget(v) => v
    }

    /** The cell after the form writes `v` into it: an Entry is cleared and shows `str(v)`
        (`delete(0, 'end')` then `insert(0, str(v))`), a BooleanVar is `set(v)`, and any
        other object is left alone. */
    function WithValue(v: Json): (r: Widget)
      ensures r.Entry? == Entry? && r.BooleanVar? == BooleanVar?
      ensures r.IsEntryOrBooleanVar() ==> r.CurrentValue() == (if Entry? then JStr(PyStr(v)) else v)
      ensures !IsEntryOrBooleanVar() ==> r == this
    {
      match this
      case Entry(_) => Entry(PyStr(v))
      case BooleanVar(_) => BooleanVar(v)
      case OtherWidget(_) => this
    }

    /** The cells `isinstance(w, tk.Entry)` or `isinstance(w, tk.BooleanVar)` accepts. */
    predicate IsEntryOrBooleanVar() {
      Entry? || BooleanVar?
    }
  }

  /** Writing a cell's own value back into it leaves the cell as it was. */
  lemma WithCurrentValue(w: Widget)
    ensures w.WithValue(w.CurrentValue()) == w
  {
    if w.Entry? {
      assert PyStr(JStr(w.text)) == w.text;
    }
  }

  /** A number shown in an Entry as `str(n)` is read back by `int(widget.get())` as `n`. */
  lemma EntryShowsInt(w: Widget, n: int)
    requires w.Entry?
    ensures IntOf(w.WithValue(JInt(n)).CurrentValue()) == Ok(n)
  {
    ShownIntReadsBack(n);
  }
}
