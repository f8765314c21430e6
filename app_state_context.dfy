/** The app-bar state shared by the pages: title, colour, action and back
    button elements, and two flags that hide the menu and the bottom
    navigation; each has a setter, and `clearState` resets four of them. */
module AppStateContext {
  import opened Wrappers

  /** A rendered element the pages put into the bar; its content is not
      modelled. */
  datatype Element = Element(key: nat)

  /** The six state fields, as one value. */
  datatype Snapshot = Snapshot(
    title: string,
    color: string,
    action: Option<Element>,
    backButton: Option<Element>,
    disableMenu: bool,
    disableBottomNavigation: bool)

  /** `initialValue`'s fields. */
  const Initial := Snapshot("Felicette cooking", "default", None, None, false, false)

  /** The state after `clearState`: title, colour, action and the menu flag
      back to their initial values; the back button and the bottom-navigation
      flag as they were. */
  function Cleared(s: Snapshot): (r: Snapshot)
    ensures r.title == Initial.title && r.color == Initial.color
    ensures r.action == Initial.action && r.disableMenu == Initial.disableMenu
    ensures r.backButton == s.backButton && r.disableBottomNavigation == s.disableBottomNavigation
  {
    s.(title := Initial.title, color := Initial.color, action := Initial.action, disableMenu := Initial.disableMenu)
  }

  /** Clearing twice is clearing once, and clearing the initial state changes
      nothing. */
  lemma ClearIsIdempotent(s: Snapshot)
    ensures Cleared(Cleared(s)) == Cleared(s)
    ensures Cleared(Initial) == Initial
  {
  }

  /** Clearing forgets everything but the two fields it keeps: two states
      that agree on those clear to the same state. */
  lemma ClearForgets(s: Snapshot, t: Snapshot)
    requires s.backButton == t.backButton && s.disableBottomNavigation == t.disableBottomNavigation
    ensures Cleared(s) == Cleared(t)
  {
  }

  class AppState {
    var title: string
    var color: string
    var action: Option<Element>
    var backButton: Option<Element>
    var disableMenu: bool
    var disableBottomNavigation: bool

    function State(): Snapshot
      reads this
    {
      Snapshot(title, color, action, backButton, disableMenu, disableBottomNavigation)
    }

    constructor ()
      ensures State() == Initial
    {
      title := "Felicette cooking";
      color := "default";
      action := None;
      backButton := None;
      disableMenu := false;
      disableBottomNavigation := false;
    }

    method SetTitle(newTitle: string)
      modifies this
      ensures State() == old(State()).(title := newTitle)
    {
      title := newTitle;
    }

    method SetColor(newColor: string)
      modifies this
      ensures State() == old(State()).(color := newColor)
    {
      color := newColor;
    }

    method SetAction(newAction: Option<Element>)
      modifies this
      ensures State() == old(State()).(action := newAction)
    {
      action := newAction;
    }

    method SetBackButton(newBackButton: Option<Element>)
      modifies this
      ensures State() == old(State()).(backButton := newBackButton)
    {
      backButton := newBackButton;
    }

    method SetDisableMenu(newState: bool)
      modifies this
      ensures State() == old(State()).(disableMenu := newState)
    {
      disableMenu := newState;
    }

    method SetDisableBottomNavigation(newState: bool)
      modifies this
      ensures State() == old(State()).(disableBottomNavigation := newState)
    {
      disableBottomNavigation := newState;
    }

    /** Four setters in sequence. */
    method ClearState()
      modifies this
      ensures State() == Cleared(old(State()))
    {
      title := "Felicette cooking";
      color := "default";
      action := None;
      disableMenu := false;
    }
  }
}
