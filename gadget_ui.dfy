/**
 * The state-editing part of the gadget handlers (public/js/ui/gadget-ui.js): they edit the
 * shared `gadgets` array of `st` and leave the ships and the legacy view alone.
 */
module GadgetUi {
  import opened Wrappers
  import opened Fleet
  import opened StateManager

  /** The gadget a new rock slot starts with. */
  const DefaultGadget: string := "sabir"

  /** `addGadget`: a Sabir at the end. */
  method AddGadget(st: UiState)
    modifies st
    ensures st.gadgets == old(st.gadgets) + [DefaultGadget]
    ensures st.ships == old(st.ships) && st.shipCount == old(st.shipCount) && st.shipModules == old(st.shipModules)
  {
    st.gadgets := st.gadgets + [DefaultGadget];
  }

  /** `removeGadget(index)`: no minimum-length guard, unlike ship removal. */
  method RemoveGadget(st: UiState, index: nat)
    modifies st
    ensures st.gadgets == Spliced(old(st.gadgets), index)
    ensures st.ships == old(st.ships) && st.shipCount == old(st.shipCount) && st.shipModules == old(st.shipModules)
  {
    st.gadgets := Spliced(st.gadgets, index);
  }

  /** `onGadgetChange(index)`: `selected` is the value of the gadget's select, `None` when it is absent. */
  method OnGadgetChange(st: UiState, index: nat, selected: Option<string>)
    requires selected.Some? ==> index < |st.gadgets|
    modifies st
    ensures selected.Some? ==> st.gadgets == old(st.gadgets)[index := selected.value]
    ensures selected.Some? ==> st.ships == old(st.ships) && st.shipCount == old(st.shipCount) && st.shipModules == old(st.shipModules)
    ensures selected.None? ==> unchanged(st)
  {
    if selected.Some? {
      st.gadgets := st.gadgets[index := selected.value];
    }
  }
}
