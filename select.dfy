/**
 * The select primitive (ui/select.tsx). `Select` owns an `open` flag and shares
 * it, with the owner's `value` and `onValueChange`, through a context; the
 * trigger, content and items read that context and render nothing outside it.
 * Calls of `onValueChange` are recorded in order, standing for the owner's callback.
 */
module SelectUi {
  import opened Json

  /** What a descendant reads from the context: the owner's value (absent when the owner passes none) and the open flag. */
  datatype Context = Context(value: Option<string>, open: bool)

  /** `SelectTrigger`: a button, or nothing outside a `Select`. */
  predicate TriggerShown(ctx: Option<Context>) {
    ctx.Some?
  }

  /** `SelectContent`: its children are rendered only inside a `Select` that is open. */
  predicate ContentShown(ctx: Option<Context>) {
    ctx.Some? && ctx.value.open
  }

  /** `SelectItem`: nothing outside a `Select`; inside, whether it is marked selected (check icon and highlight). */
  function ItemSelected(ctx: Option<Context>, itemValue: string): Option<bool>
  {
    if ctx.None? then None else Some(ctx.value.value == Some(itemValue))
  }

  /** `SelectValue`: the caller's placeholder, rendered with or without a context. */
  function ValueText(ctx: Option<Context>, placeholder: string): string
  {
    placeholder
  }

  /** Inside a select, an item is marked exactly when its value is the owner's value; with distinct item values at most one item is. */
  lemma {:induction false} SelectedItems(ctx: Context, items: seq<string>)
    requires forall i, j :: 0 <= i < j < |items| ==> items[i] != items[j]
    ensures forall i :: 0 <= i < |items| ==> (ItemSelected(Some(ctx), items[i]) == Some(true) <==> ctx.value == Some(items[i]))
    ensures forall i, j :: (0 <= i < |items| && 0 <= j < |items| && ItemSelected(Some(ctx), items[i]) == Some(true)
              && ItemSelected(Some(ctx), items[j]) == Some(true)) ==> i == j
    ensures ctx.value.None? ==> forall i :: 0 <= i < |items| ==> ItemSelected(Some(ctx), items[i]) == Some(false)
  {
  }

  /** The text shown for the current value never depends on the value: a value missing from the items still shows the placeholder. */
  lemma ValueTextIgnoresValue(c1: Option<Context>, c2: Option<Context>, placeholder: string)
    ensures ValueText(c1, placeholder) == ValueText(c2, placeholder) == placeholder
  {
  }

  /** One `Select` instance: the owner's props and the internal open flag. */
  class Select {
    var value: Option<string>
    var open: bool
    var changes: seq<string>

    /** Mounting: closed, with the owner's value. */
    constructor (value: Option<string>)
      ensures this.value == value && !open && changes == []
    {
      this.value := value;
      open := false;
      changes := [];
    }

    function Ctx(): Context
      reads this
    {
      Context(value, open)
    }

    /** The trigger's `onClick`: `setOpen(!open)`. */
    method ClickTrigger()
      modifies this
      ensures open == !old(open) && value == old(value) && changes == old(changes)
    {
      open := !open;
    }

    /** An item's `onClick`: `onValueChange(value)` once, even for the current value, then `setOpen(false)`. */
    method ClickItem(itemValue: string)
      modifies this
      ensures changes == old(changes) + [itemValue]
      ensures !open && !ContentShown(Some(Ctx())) && value == old(value)
    {
      changes := changes + [itemValue];
      open := false;
    }

    /** The owner re-renders with a new `value` prop; the open flag is kept. */
    method Rerender(value: Option<string>)
      modifies this
      ensures this.value == value && open == old(open) && changes == old(changes)
    {
      this.value := value;
    }
  }

  /** Open, choose the current value again, and the callback still fires once and the list closes. */
  method ReselectCurrent(v: string) returns (changes: seq<string>, shown: bool, marked: Option<bool>)
    ensures changes == [v] && !shown && marked == Some(true)
  {
    var s := new Select(Some(v));
    s.ClickTrigger();
    s.ClickItem(v);
    changes, shown := s.changes, ContentShown(Some(s.Ctx()));
    marked := ItemSelected(Some(s.Ctx()), v);
  }

  /** Opening and closing with the trigger returns to the closed state without any callback. */
  method ToggleTwice() returns (open: bool, changes: seq<string>)
    ensures !open && changes == []
  {
    var s := new Select(None);
    s.ClickTrigger();
    s.ClickTrigger();
    open, changes := s.open, s.changes;
  }
}
