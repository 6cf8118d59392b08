/**
 * The camera session of the webcam viewer window: which capture object it
 * holds, whether the refresh timer runs, the brightness last read from the
 * slider and what the video label shows, together with the effects of the
 * Open and Close buttons, of each timer tick and of closing the window.
 *
 * The capture device, the slider widget and the timer are outside the
 * model: whether a device opens or a read delivers a frame, and which value
 * the slider holds, are parameters.
 */
module Webcam {
  import opened Brightness

  datatype Option<T> = None | Some(value: T)

  /**
   * One capture object made by the Open button: its identity (how many
   * capture objects were made before it) and whether the device reported it
   * opened.
   */
  datatype Capture = Capture(id: nat, isOpened: bool)

  /** The brightness slider's range and initial position. */
  const SliderMin: int := -100
  const SliderMax: int := 100
  const SliderDefault: int := 0

  type SliderValue = x: int | SliderMin <= x <= SliderMax

  /**
   * The window's session state: the capture object (None when there is
   * none), the refresh timer, the stored brightness value, the frame shown
   * in the video label (None when cleared), the capture objects released so
   * far in release order, and the number of capture objects made so far.
   */
  datatype Session = Session(
    cap: Option<Capture>,
    timerRunning: bool,
    brightness: int,
    videoLabel: Option<Frame>,
    released: seq<Capture>,
    created: nat)

  /**
   * What every reachable session satisfies: the stored brightness is a slider
   * position; the timer only runs, and the video label only shows a frame,
   * while a capture object is held; every released capture was made earlier,
   * captures are released in the order they were made, at most once each, and
   * the held one has not been released.
   */
  predicate Consistent(s: Session) {
    && SliderMin <= s.brightness <= SliderMax
    && (s.timerRunning ==> s.cap.Some?)
    && (s.cap.None? ==> s.videoLabel.None?)
    && (forall i :: 0 <= i < |s.released| ==> s.released[i].id < s.created)
    && (forall i, j :: 0 <= i < j < |s.released| ==> s.released[i].id < s.released[j].id)
    && (s.cap.Some? ==>
          && s.cap.value.id < s.created
          && forall i :: 0 <= i < |s.released| ==> s.released[i].id < s.cap.value.id)
  }

  /** The window as constructed: no capture, timer stopped, brightness 0. */
  function Initial(): (s: Session)
    ensures Consistent(s)
    ensures s.cap.None? && !s.timerRunning && s.videoLabel.None?
    ensures s.brightness == SliderDefault && s.released == []
  {
    Session(None, false, SliderDefault, None, [], 0)
  }

  /**
   * open_webcam: a new capture object replaces the held one whether or not
   * the device opens (the replaced one is not released); the timer is
   * started only when the device opens, and is otherwise left as it was.
   */
  function Open(s: Session, openSucceeds: bool): (r: Session)
    ensures r.cap == Some(Capture(s.created, openSucceeds))
    ensures r.created == s.created + 1
    ensures openSucceeds ==> r.timerRunning
    ensures !openSucceeds ==> r.timerRunning == s.timerRunning
    ensures r.released == s.released && r.brightness == s.brightness && r.videoLabel == s.videoLabel
    ensures Consistent(s) ==> Consistent(r)
  {
    var withNew := s.(cap := Some(Capture(s.created, openSucceeds)), created := s.created + 1);
    if !openSucceeds then withNew else withNew.(timerRunning := true)
  }

  /**
   * close_webcam: with a capture object held, the timer stops, the object is
   * released and dropped; without one, neither changes. The video label is
   * cleared in both cases.
   */
  function Close(s: Session): (r: Session)
    ensures r.cap.None? && r.videoLabel.None?
    ensures s.cap.Some? ==> !r.timerRunning && r.released == s.released + [s.cap.value]
    ensures s.cap.None? ==> r.timerRunning == s.timerRunning && r.released == s.released
    ensures r.brightness == s.brightness && r.created == s.created
    ensures Consistent(s) ==> Consistent(r) && !r.timerRunning
  {
    if s.cap.Some? then
      s.(timerRunning := false, released := s.released + [s.cap.value], cap := None, videoLabel := None)
    else
      s.(videoLabel := None)
  }

  /**
   * update_frame: without a capture object, or when the read delivers no
   * frame, nothing changes. Otherwise the slider value is stored as the
   * brightness and the video label shows the frame adjusted by it.
   */
  function Update(s: Session, readSucceeds: bool, frame: Frame, slider: SliderValue): (r: Session)
    ensures s.cap.None? || !readSucceeds ==> r == s
    ensures s.cap.Some? && readSucceeds ==>
      && r.brightness == slider
      && r.videoLabel == Some(AdjustBrightness(frame, r.brightness))
      && r.cap == s.cap && r.timerRunning == s.timerRunning
      && r.released == s.released && r.created == s.created
    ensures Consistent(s) ==> Consistent(r)
  {
    if s.cap.None? || !readSucceeds then s
    else s.(brightness := slider, videoLabel := Some(AdjustBrightness(frame, slider)))
  }

  /** closeEvent: the window closing has exactly the effect of the Close button. */
  function WindowClose(s: Session): (r: Session)
    ensures r.cap.None? && r.videoLabel.None?
    ensures s.cap.Some? ==> !r.timerRunning && r.released == s.released + [s.cap.value]
    ensures s.cap.None? ==> r.timerRunning == s.timerRunning && r.released == s.released
    ensures r.brightness == s.brightness && r.created == s.created
  {
    Close(s)
  }

  /** Closing twice is closing once. */
  lemma CloseIdempotent(s: Session)
    ensures Close(Close(s)) == Close(s)
  {
  }

  /** A held capture object is released by Close even when its open failed. */
  lemma OpenThenClose(s: Session, openSucceeds: bool)
    ensures Close(Open(s, openSucceeds)).cap.None?
    ensures !Close(Open(s, openSucceeds)).timerRunning
    ensures Close(Open(s, openSucceeds)).released == s.released + [Capture(s.created, openSucceeds)]
  {
  }

  /**
   * A failed read leaves no trace: the next successful tick ends in the
   * state it would have reached without the failure.
   */
  lemma ReadFailureThenSuccess(s: Session, lost: Frame, v1: SliderValue, frame: Frame, v2: SliderValue)
    ensures Update(Update(s, false, lost, v1), true, frame, v2) == Update(s, true, frame, v2)
  {
  }

  /** With no capture object held, Close changes nothing: the label is already clear. */
  lemma CloseWhenClosed(s: Session)
    requires Consistent(s)
    requires s.cap.None?
    ensures Close(s) == s
  {
  }

  /** In a consistent session no capture object appears twice among the released. */
  lemma NoDoubleRelease(s: Session, i: nat, j: nat)
    requires Consistent(s)
    requires i < j < |s.released|
    ensures s.released[i] != s.released[j]
  {
  }

  /**
   * What the window receives: a click on Open (the device opens or not), a
   * click on Close, a tick of the refresh timer (a read that delivers a frame
   * or not, with the slider's position at that moment), or the window being
   * closed.
   */
  datatype Event =
    | OpenClicked(openSucceeds: bool)
    | CloseClicked
    | TimerTick(readSucceeds: bool, frame: Frame, slider: SliderValue)
    | WindowClosed

  /** One event: a tick reaches update_frame only while the timer runs. */
  function Step(s: Session, e: Event): (r: Session)
    ensures Consistent(s) ==> Consistent(r)
    ensures !s.timerRunning && e.TimerTick? ==> r == s
  {
    match e
    case OpenClicked(ok) => Open(s, ok)
    case CloseClicked => Close(s)
    case TimerTick(ok, frame, slider) => if s.timerRunning then Update(s, ok, frame, slider) else s
    case WindowClosed => WindowClose(s)
  }

  /** The window's life: events in order, none after the window is closed. */
  function Run(s: Session, events: seq<Event>): Session
    decreases |events|
  {
    if events == [] then s
    else if events[0].WindowClosed? then WindowClose(s)
    else Run(Step(s, events[0]), events[1..])
  }

  /** Every session the window can reach from its initial state is consistent. */
  lemma {:induction false} RunConsistent(s: Session, events: seq<Event>)
    requires Consistent(s)
    ensures Consistent(Run(s, events))
    decreases |events|
  {
    if events != [] && !events[0].WindowClosed? {
      RunConsistent(Step(s, events[0]), events[1..]);
    }
  }

  /**
   * Closing the window always leaves the device released and the timer
   * stopped, whatever came before it.
   */
  lemma {:induction false} RunEndsClosed(s: Session, events: seq<Event>)
    requires Consistent(s)
    requires WindowClosed in events
    ensures Run(s, events).cap.None?
    ensures !Run(s, events).timerRunning
    decreases |events|
  {
    if !events[0].WindowClosed? {
      assert WindowClosed in events[1..] by {
        var k :| 0 <= k < |events| && events[k] == WindowClosed;
        assert events[1..][k - 1] == WindowClosed;
      }
      RunEndsClosed(Step(s, events[0]), events[1..]);
    }
  }

  /**
   * The window object. Its fields are the session state; the button,
   * timer and window-close handlers update them in place.
   */
  class WebcamApp {
    var cap: Option<Capture>
    var timerRunning: bool
    var brightnessValue: int
    var videoLabel: Option<Frame>
    var released: seq<Capture>
    var created: nat

    /** The session this object holds. */
    function State(): Session
      reads this
    {
      Session(cap, timerRunning, brightnessValue, videoLabel, released, created)
    }

    ghost predicate Valid()
      reads this
    {
      Consistent(State())
    }

    constructor ()
      ensures Valid()
      ensures State() == Initial()
    {
      cap := None;
      videoLabel := None;
      timerRunning := false;
      brightnessValue := SliderDefault;
      released := [];
      created := 0;
    }

    method OpenWebcam(openSucceeds: bool)
      requires Valid()
      modifies this
      ensures Valid()
      ensures State() == Open(old(State()), openSucceeds)
    {
      cap := Some(Capture(created, openSucceeds));
      created := created + 1;
      if !cap.value.isOpened {
        return;
      }
      timerRunning := true;
    }

    method CloseWebcam()
      requires Valid()
      modifies this
      ensures Valid() && cap.None? && !timerRunning
      ensures State() == Close(old(State()))
    {
      if cap.Some? {
        timerRunning := false;
        released := released + [cap.value];
        cap := None;
      }
      videoLabel := None;
    }

    method UpdateFrame(readSucceeds: bool, frame: Frame, slider: SliderValue)
      requires Valid()
      modifies this
      ensures Valid()
      ensures State() == Update(old(State()), readSucceeds, frame, slider)
    {
      if cap.None? {
        return;
      }
      if !readSucceeds {
        return;
      }
      brightnessValue := slider;
      var adjusted := AdjustBrightness(frame, brightnessValue);
      videoLabel := Some(adjusted);
    }

    method CloseEvent()
      requires Valid()
      modifies this
      ensures Valid() && cap.None? && !timerRunning
      ensures State() == WindowClose(old(State()))
    {
      CloseWebcam();
    }
  }
}
