/** The application state of the console (src/core/app_state.rs).

    `AppState` is the mutable record the event handlers update in place.
    `AppView` is its value: the eight fields at one instant. Every mutator of
    the class is specified by the member of `AppView` with the same name, and
    the event handlers of the other modules are specified as functions from
    one `AppView` to the next. */
module State {

  /** The five regions of the screen that can hold keyboard focus. */
  datatype FocusArea = Header | Navigation | Preview | Input | Footer

  /** The number of entries in the navigation menu. */
  const NavigationItemsCount: nat := 6

  /** The value of an `AppState`. */
  datatype AppView = AppView(
    focus: FocusArea,
    inputBuffer: string,
    cursorPosition: nat,
    outputLog: seq<string>,
    showQuitModal: bool,
    selectedNavigationItem: nat,
    previewContent: string,
    isCommandMode: bool)
  {
    /** The cursor addresses a position of the buffer (one character per
        position); slicing or inserting at it is then defined. */
    predicate CursorInRange() {
      cursorPosition <= |inputBuffer|
    }

    /** The state invariant every handler keeps. */
    predicate Valid() {
      && CursorInRange()
      && selectedNavigationItem < NavigationItemsCount
      && (inputBuffer == [] ==> !isCommandMode)
    }

    predicate HasFocus(area: FocusArea) {
      focus == area
    }

    /** Empties the input line and leaves command mode. */
    function ResetInput(): (r: AppView)
      ensures r.inputBuffer == [] && r.cursorPosition == 0 && !r.isCommandMode
      ensures r.Valid() <==> selectedNavigationItem < NavigationItemsCount
      ensures r.(inputBuffer := inputBuffer, cursorPosition := cursorPosition, isCommandMode := isCommandMode) == this
    {
      this.(inputBuffer := [], cursorPosition := 0, isCommandMode := false)
    }

    /** Appends one message at the end of the output log. */
    function LogOutput(message: string): (r: AppView)
      ensures |r.outputLog| == |outputLog| + 1
      ensures r.outputLog[|outputLog|] == message
      ensures forall i :: 0 <= i < |outputLog| ==> r.outputLog[i] == outputLog[i]
      ensures r.(outputLog := outputLog) == this
    {
      this.(outputLog := outputLog + [message])
    }

    /** Gives the focus to `area`, and to no other region. */
    function SetFocus(area: FocusArea): (r: AppView)
      ensures r.HasFocus(area)
      ensures forall b :: r.HasFocus(b) ==> b == area
      ensures r.(focus := focus) == this
    {
      this.(focus := area)
    }

    function UpdatePreview(content: string): (r: AppView)
      ensures r.previewContent == content
      ensures r.(previewContent := previewContent) == this
    {
      this.(previewContent := content)
    }

    /** Selects a navigation entry, saturating at the last one. */
    function SelectNavigationItem(index: nat): (r: AppView)
      ensures r.selectedNavigationItem < NavigationItemsCount
      ensures index < NavigationItemsCount ==> r.selectedNavigationItem == index
      ensures index >= NavigationItemsCount ==> r.selectedNavigationItem == NavigationItemsCount - 1
      ensures r.(selectedNavigationItem := selectedNavigationItem) == this
    {
      this.(selectedNavigationItem := if index <= NavigationItemsCount - 1 then index else NavigationItemsCount - 1)
    }
  }

  /** The state a freshly created `AppState` holds. */
  function Initial(): (v: AppView)
    ensures v.Valid()
    ensures v.HasFocus(Navigation)
    ensures v.inputBuffer == [] && v.outputLog == [] && v.previewContent == []
    ensures !v.showQuitModal && v.selectedNavigationItem == 0
  {
    AppView(Navigation, "", 0, [], false, 0, "", false)
  }

  /** Selecting the same entry twice is the same as selecting it once. */
  lemma SelectNavigationItemIdempotent(v: AppView, index: nat)
    ensures v.SelectNavigationItem(index).SelectNavigationItem(index) == v.SelectNavigationItem(index)
  {
  }

  /** The mutable record of the application state. */
  class AppState {
    var focus: FocusArea
    var inputBuffer: string
    var cursorPosition: nat
    var outputLog: seq<string>
    var showQuitModal: bool
    var selectedNavigationItem: nat
    var previewContent: string
    var isCommandMode: bool

    function View(): AppView
      reads this
    {
      AppView(focus, inputBuffer, cursorPosition, outputLog, showQuitModal,
              selectedNavigationItem, previewContent, isCommandMode)
    }

    /** `AppState::new`, which is `AppState::default`. */
    constructor ()
      ensures View() == Initial()
      ensures focus == Navigation && inputBuffer == [] && cursorPosition == 0 && outputLog == []
      ensures !showQuitModal && selectedNavigationItem == 0 && previewContent == [] && !isCommandMode
    {
      focus := Navigation;
      inputBuffer := "";
      cursorPosition := 0;
      outputLog := [];
      showQuitModal := false;
      selectedNavigationItem := 0;
      previewContent := "";
      isCommandMode := false;
    }

    method ResetInput()
      modifies this
      ensures View() == old(View()).ResetInput()
    {
      inputBuffer := "";
      cursorPosition := 0;
      isCommandMode := false;
    }

    method LogOutput(message: string)
      modifies this
      ensures View() == old(View()).LogOutput(message)
    {
      outputLog := outputLog + [message];
    }

    method SetFocus(area: FocusArea)
      modifies this
      ensures View() == old(View()).SetFocus(area)
      ensures HasFocus(area) && forall b :: HasFocus(b) ==> b == area
    {
      focus := area;
    }

    predicate HasFocus(area: FocusArea)
      reads this
    {
      focus == area
    }

    method UpdatePreview(content: string)
      modifies this
      ensures View() == old(View()).UpdatePreview(content)
    {
      previewContent := content;
    }

    method SelectNavigationItem(index: nat)
      modifies this
      ensures View() == old(View()).SelectNavigationItem(index)
    {
      selectedNavigationItem := if index <= NavigationItemsCount - 1 then index else NavigationItemsCount - 1;
    }
  }
}
