# Webcam viewer with brightness control: a Dafny model

The program shows a live webcam feed in a desktop window. A slider sets a
brightness offset in [-100, 100]. Buttons open and close the camera. Everything
it does itself is in the `WebcamApp` window class of `test_cam.py`. The rest
is done by the GUI toolkit and the vision library.

This project models the two pieces of that class that hold logic:

- `brightness.dfy`, module `Brightness`: the frame (`Frame`: height, width and
  the row-major sequence of 8-bit channel values) and `adjust_brightness`.
  This is a saturating addition of the offset to every channel, clipped to
  [0, 255]. The source computes it in `float32`. The model uses integers: every
  intermediate value is an integer, and rounding to `float32` is monotone and
  keeps 0 and 255 exact, so the clipped byte is the same.
- `webcam.dfy`, module `Webcam`: the window's session state and what the Open
  and Close buttons, each refresh-timer tick and the window-close event do to
  it. The state is the capture object held (`cap`), whether the refresh timer
  runs, the stored `brightness_value`, the frame in the video label, the
  capture objects released so far, and how many capture objects were made.
  The state is given twice: as the value `Session` with one pure function per
  handler (`Open`, `Close`, `Update`, `WindowClose`), and as the class
  `WebcamApp`, whose methods update the fields in place and are proved to
  produce exactly what those functions say. `Run` replays a sequence of window
  events. A timer tick reaches `update_frame` only while the timer runs, and no
  event is handled after the window closes.

External outcomes are parameters. These are whether the device opens
(`isOpened()`), whether a read delivers a frame and which frame (`read()`), and
the slider's position at each tick (`value()`).

Three behaviours of the code that the model keeps as written:

- A failed open leaves the session holding a capture object that did not
  open. The new capture object is stored before the open is checked. The
  timer is not touched on that path. If an earlier open had started it, it
  keeps running and ticks read from the unopened capture.
- `close_webcam` clears the video label even when no capture is held.
- Opening while a capture is held replaces the old capture object without
  releasing it.

## Model

| member | source | states |
|---|---|---|
| `Brightness.Clip` | test_cam.py:104 | the clipped value lies in [lo, hi], equals x when x is already inside, and is the point of [lo, hi] nearest to x |
| `Brightness.AdjustChannel` | test_cam.py:102-105 | one channel: exactly v + offset when that is in [0, 255], 0 below, 255 above; never darker for offset >= 0, never brighter for offset <= 0 |
| `Brightness.AdjustChannels` | test_cam.py:100-106 | the whole-array transform keeps the buffer length and each output channel is the saturating sum of the input channel at the same index and the offset |
| `Brightness.AdjustBrightness` | test_cam.py:100-106 | the frame keeps its height, width and shape, and every channel is adjusted by the saturating sum |
| `Brightness.AdjustBounded` | test_cam.py:104-105 | every output channel lies in [0, 255] for any input and any offset |
| `Brightness.AdjustIdentity` | test_cam.py:102-105 | offset 0 returns the frame unchanged |
| `Brightness.AdjustDirection` | test_cam.py:103-105 | a non-negative offset never lowers a channel; a non-positive one never raises one |
| `Brightness.AdjustOrderPreserving` | test_cam.py:103-105 | if one input channel is at most another, the same holds after adjustment |
| `Brightness.AdjustMonotoneInOffset` | test_cam.py:103-105 | a larger offset never gives a darker channel |
| `Brightness.AdjustConcat` | test_cam.py:100-106 | adjusting two buffers laid end to end equals adjusting each one, so no output depends on a neighbour |
| `Brightness.AdjustSlice` | test_cam.py:100-106 | adjusting a slice equals slicing the adjusted buffer |
| `Brightness.AdjustCompose` | test_cam.py:103-105 | two offsets of the same sign applied one after the other equal one adjustment by their sum |
| `Brightness.AdjustUndo` | test_cam.py:103-105 | for offsets in [-255, 255], applying o and then -o restores the buffer if and only if no channel saturated under o |
| `Brightness.AdjustUniform` | test_cam.py:100-106 | a frame whose channels all hold v becomes a frame whose channels all hold the adjusted v |
| `Brightness.AdjustWorkedCases` | test_cam.py:100-106 | 100 + 50 gives 150; 240 + 50 saturates at 255; 10 - 50 saturates at 0 |
| `Webcam.Initial` | test_cam.py:17-54 | the new window holds no capture, its timer is stopped, brightness is 0, nothing is released, and the state is consistent |
| `Webcam.Open` | test_cam.py:56-64 | a new capture object is held whether or not it opened; the timer runs after a successful open and is unchanged after a failed one; nothing is released; consistency is kept |
| `Webcam.Close` | test_cam.py:66-74 | afterwards no capture is held and the label is clear; a held capture is released and the timer stopped; with none held, the timer and the released list are unchanged; consistency is kept |
| `Webcam.Update` | test_cam.py:76-98 | with no capture held or a failed read, the state is unchanged, including brightness; after a successful read the brightness equals the slider value and the label shows the frame adjusted by it, with the rest unchanged |
| `Webcam.WindowClose` | test_cam.py:108-111 | closing the window has the same effect on capture, timer, label and released list as the Close button |
| `Webcam.CloseIdempotent` | test_cam.py:66-74 | closing twice gives the same state as closing once |
| `Webcam.OpenThenClose` | test_cam.py:56-71 | after an open, successful or not, a close releases exactly that capture object and stops the timer |
| `Webcam.ReadFailureThenSuccess` | test_cam.py:76-89 | a failed read leaves no trace: the next successful tick reaches the same state as without it |
| `Webcam.CloseWhenClosed` | test_cam.py:66-74 | in a consistent session with no capture held, Close changes nothing at all: the label is already clear |
| `Webcam.NoDoubleRelease` | test_cam.py:66-71 | in a consistent session no capture object is released twice |
| `Webcam.Step` | test_cam.py:33-50 | each button, tick or window-close event keeps the session consistent; a tick while the timer is stopped changes nothing |
| `Webcam.RunConsistent` | test_cam.py:56-111 | every session reachable through any sequence of events is consistent: brightness within the slider range, the timer only running and the label only showing a frame while a capture is held, releases in creation order and never repeated |
| `Webcam.RunEndsClosed` | test_cam.py:108-111 | any run that includes closing the window ends with no capture held and the timer stopped |
| `Webcam.WebcamApp.constructor` | test_cam.py:9-54 | the fields start as the initial session |
| `Webcam.WebcamApp.OpenWebcam` | test_cam.py:56-64 | updates the fields in place to exactly `Open` of the old state, keeping the object invariant |
| `Webcam.WebcamApp.CloseWebcam` | test_cam.py:66-74 | updates the fields in place to exactly `Close` of the old state; afterwards no capture is held and the timer is stopped |
| `Webcam.WebcamApp.UpdateFrame` | test_cam.py:76-98 | updates the fields in place to exactly `Update` of the old state, keeping the object invariant |
| `Webcam.WebcamApp.CloseEvent` | test_cam.py:108-111 | updates the fields in place to exactly `WindowClose` of the old state |

## Left out

- Window construction, layout, tooltips and tick marks (test_cam.py:12-46) are GUI setup. The model keeps only the slider's range and its initial value.
- Scheduling by `QTimer` and its 30 ms period (test_cam.py:49-51, 64) are toolkit work. The timer is a running flag, and a tick is an event that reaches `update_frame` only while the flag is set.
- Webcam.Update: the model does not force a read from a capture object that did not open to fail. The read's outcome is a parameter for every held capture, as update_frame (test_cam.py:81-83) does not check isOpened() itself; with OpenCV such a read returns no frame, and a caller modelling that passes a failed read.
- Opening, reading and releasing the device through `cv2.VideoCapture` (test_cam.py:58-59, 70, 81) is device I/O. Their outcomes are parameters, and a release is recorded as the capture object added to the released list.
- The model does not say what happens to a capture object that a later open overwrites (test_cam.py:58). It is not released by the program; what the library or garbage collector does with it is outside the model.
- The BGR-to-RGB conversion, the `QImage` and `QPixmap` construction (test_cam.py:92-97) are foreign library calls. The label holds the brightness-adjusted frame as read, before colour conversion.
- The `float32` intermediate of `adjust_brightness` is modelled as integer arithmetic. This gives the same bytes for the integer values involved. An offset too large for `float32` is not modelled.
- The "Cannot open camera" message, `event.accept()` and the program entry point (test_cam.py:60, 111, 113-117) are I/O and process start-up.
- Brightness.AdjustUndo: the if-and-only-if is stated for offsets in [-255, 255] only. For larger offsets a saturated channel can come back unchanged (255 with offset -300), so the equivalence does not hold there. Slider offsets are within [-100, 100].
