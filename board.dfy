/**
 * The application's polling object: it writes "On" or "Off" under the key
 * "test", copies the stored value into Value once per timer tick, and maps
 * Value to the colour the UI shows. The server's key space is a map.
 */
module Board {
  import opened Wrappers

  const StateKey := "test"
  const OnValue := "On"
  const OffValue := "Off"
  const OnColor := "Yellow"
  const OffColor := "#564b4b"
  /** The polling period, in milliseconds. */
  const PollInterval := 1000
  /** What reading the value of an absent reply throws, when it throws. */
  const MissingValue := "bad optional access"

  /**
   * What value() does on the reply of GET for an absent key: the optional
   * type behind it either throws, or hands back an empty string.
   */
  datatype EmptyRead = Throws | EmptyString

  /** The colour shown for a stored value: yellow for exactly "On", grey for anything else. */
  function ColorOf(value: string): (color: string)
    ensures color == "Yellow" <==> value == "On"
    ensures value != "On" ==> color == "#564b4b"
  {
    if value == OnValue then OnColor else OffColor
  }

  /** The key space after one press of the switch: "On" or "Off" under "test", every other key as it was. */
  function Switch(store: map<string, string>, on: bool): (r: map<string, string>)
    ensures r.Keys == store.Keys + {"test"}
    ensures r["test"] == if on then "On" else "Off"
    ensures forall k :: k in store && k != "test" ==> r[k] == store[k]
  {
    store[StateKey := if on then OnValue else OffValue]
  }

  /** The key space after a sequence of presses, oldest first. */
  function SwitchAll(store: map<string, string>, presses: seq<bool>): map<string, string>
  {
    if presses == [] then store else Switch(SwitchAll(store, presses[..|presses| - 1]), presses[|presses| - 1])
  }

  /**
   * After any non-empty sequence of presses, a poll shows yellow exactly when
   * the last press was "on", whatever the key space held before.
   */
  lemma {:induction false} LastPressDecides(store: map<string, string>, presses: seq<bool>)
    requires presses != []
    ensures StateKey in SwitchAll(store, presses)
    ensures ColorOf(SwitchAll(store, presses)[StateKey]) == "Yellow" <==> presses[|presses| - 1]
    ensures forall k :: k in store && k != StateKey ==> k in SwitchAll(store, presses) && SwitchAll(store, presses)[k] == store[k]
  {
    var before := presses[..|presses| - 1];
    if before != [] {
      LastPressDecides(store, before);
    }
  }

  /**
   * How the dispatch of one command went: it completed; it was refused before
   * anything was sent (a broken connection, no connection to lend), so the
   * server never saw the command; or the command reached the server and the
   * receive of its reply failed. Either failure throws its error.
   */
  datatype Dispatch = Completed | Refused(error: Error) | ReplyLost(error: Error)

  class MessageBoard {
    var value: string
    var valueColor: string
    /** The server's key space, as the client reaches it. */
    var store: map<string, string>
    var timerRunning: bool
    var timerInterval: int

    /**
     * Builds the board. setup is what connecting and authenticating did; an
     * exception there is caught, and construction still finishes and starts
     * the one-second timer.
     */
    constructor (server: map<string, string>, setup: Outcome)
      ensures store == server
      ensures timerRunning && timerInterval == 1000
      ensures value == "" && valueColor == ""
    {
      store := server;
      value, valueColor := "", "";
      timerInterval := PollInterval;
      timerRunning := true;
    }

    /** The current value, read without changing anything. */
    method Invalue() returns (v: string)
      ensures v == value
    {
      v := value;
    }

    /** Maps Value to its colour and records it in ValueColor. */
    method VColor() returns (color: string)
      modifies this
      ensures color == ColorOf(value) && valueColor == color
      ensures value == old(value) && store == old(store)
      ensures timerRunning == old(timerRunning) && timerInterval == old(timerInterval)
    {
      if value == OnValue {
        valueColor := OnColor;
      } else {
        valueColor := OffColor;
      }
      color := valueColor;
    }

    /**
     * The timer slot: one GET of "test" through the client; when its
     * dispatch completes, the value read is copied into Value. emptyRead says
     * what reading an absent reply does.
     */
    method Myslot(dispatch: Dispatch, emptyRead: EmptyRead) returns (outcome: Outcome)
      modifies this
      ensures !dispatch.Completed? ==> outcome == Fail(dispatch.error) && value == old(value)
      ensures dispatch.Completed? && StateKey in store ==> outcome == Pass && value == store[StateKey]
      ensures dispatch.Completed? && StateKey !in store && emptyRead == Throws ==>
        outcome == Fail(Error(MissingValue)) && value == old(value)
      ensures dispatch.Completed? && StateKey !in store && emptyRead == EmptyString ==>
        outcome == Pass && value == "" && ColorOf(value) == "#564b4b"
      ensures store == old(store) && valueColor == old(valueColor)
      ensures timerRunning == old(timerRunning) && timerInterval == old(timerInterval)
    {
      if !dispatch.Completed? {
        return Fail(dispatch.error);
      }
      if StateKey in store {
        value := store[StateKey];
      } else if emptyRead == Throws {
        return Fail(Error(MissingValue));
      } else {
        value := "";
      }
      outcome := Pass;
    }

    /**
     * The "on" action: one SET of "test" to "On". A refused dispatch leaves the
     * key space as it was; once the command reached the server, the key space
     * is switched whether or not its reply comes back.
     */
    method On(dispatch: Dispatch) returns (outcome: Outcome)
      modifies this
      ensures dispatch.Completed? ==> outcome == Pass && store == Switch(old(store), true)
      ensures dispatch.Refused? ==> outcome == Fail(dispatch.error) && store == old(store)
      ensures dispatch.ReplyLost? ==> outcome == Fail(dispatch.error) && store == Switch(old(store), true)
      ensures value == old(value) && valueColor == old(valueColor)
      ensures timerRunning == old(timerRunning) && timerInterval == old(timerInterval)
    {
      if dispatch.Refused? {
        return Fail(dispatch.error);
      }
      store := Switch(store, true);
      outcome := if dispatch.ReplyLost? then Fail(dispatch.error) else Pass;
    }

    /**
     * The "off" action: one SET of "test" to "Off". A refused dispatch leaves the
     * key space as it was; once the command reached the server, the key space
     * is switched whether or not its reply comes back.
     */
    method Off(dispatch: Dispatch) returns (outcome: Outcome)
      modifies this
      ensures dispatch.Completed? ==> outcome == Pass && store == Switch(old(store), false)
      ensures dispatch.Refused? ==> outcome == Fail(dispatch.error) && store == old(store)
      ensures dispatch.ReplyLost? ==> outcome == Fail(dispatch.error) && store == Switch(old(store), false)
      ensures value == old(value) && valueColor == old(valueColor)
      ensures timerRunning == old(timerRunning) && timerInterval == old(timerInterval)
    {
      if dispatch.Refused? {
        return Fail(dispatch.error);
      }
      store := Switch(store, false);
      outcome := if dispatch.ReplyLost? then Fail(dispatch.error) else Pass;
    }
  }

  /** Pressing "on", then a timer tick, makes the board show yellow. */
  method SwitchOnAndShow(b: MessageBoard, emptyRead: EmptyRead) returns (color: string)
    modifies b
    ensures b.value == "On" && color == "Yellow" && b.valueColor == "Yellow"
  {
    var outcome := b.On(Completed);
    outcome := b.Myslot(Completed, emptyRead);
    color := b.VColor();
  }

  /** Pressing "off", then a timer tick, makes the board show grey. */
  method SwitchOffAndShow(b: MessageBoard, emptyRead: EmptyRead) returns (color: string)
    modifies b
    ensures b.value == "Off" && color == "#564b4b" && b.valueColor == "#564b4b"
  {
    var outcome := b.Off(Completed);
    outcome := b.Myslot(Completed, emptyRead);
    color := b.VColor();
  }

  /**
   * A user's presses (true for "on", false for "off"), each dispatched
   * successfully, then one timer tick: the store is SwitchAll of the presses,
   * and the board shows yellow exactly when the last press was "on".
   */
  method PressAllAndShow(b: MessageBoard, presses: seq<bool>, emptyRead: EmptyRead) returns (color: string)
    requires presses != []
    modifies b
    ensures b.store == SwitchAll(old(b.store), presses)
    ensures b.valueColor == color
    ensures color == "Yellow" <==> presses[|presses| - 1]
  {
    var i := 0;
    while i < |presses|
      invariant 0 <= i <= |presses|
      invariant b.store == SwitchAll(old(b.store), presses[..i])
    {
      var outcome;
      if presses[i] {
        outcome := b.On(Completed);
      } else {
        outcome := b.Off(Completed);
      }
      assert presses[..i + 1][..i] == presses[..i];
      i := i + 1;
    }
    assert presses[..i] == presses;
    LastPressDecides(old(b.store), presses);
    var outcome := b.Myslot(Completed, emptyRead);
    color := b.VColor();
  }

  /** Asking for the colour twice, with no tick in between, gives the same answer and leaves the same ValueColor. */
  method ShowColorTwice(b: MessageBoard) returns (first: string, second: string)
    modifies b
    ensures first == second && b.valueColor == second && b.value == old(b.value)
  {
    first := b.VColor();
    second := b.VColor();
  }
}
