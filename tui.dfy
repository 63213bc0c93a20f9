/**
 * The application's state machine: the `App` record, the key handling of the
 * main loop's blocking branch, the downloading tick of its polling branch, and
 * `check_download`. Each `App` method is tied to a pure transition function on
 * `AppModel`, and the properties of the program are lemmas about those.
 *
 * The shared progress state (output text, `done`, `success`) and the directory
 * listing are inputs of the tick, not fields: they are what the loop reads from
 * the worker and the file system at that instant.
 */
module Tui {
  import opened Wrappers
  import opened Display
  import opened Listing
  import opened Worker

  datatype AppState = InputPlaylistName | InputUrl | Downloading | Done | Error

  /** The key codes the loop distinguishes; every other key is `OtherKey`. */
  datatype KeyCode = Char(c: char) | Enter | Backspace | Esc | OtherKey

  datatype KeyEventKind = Press | Repeat | Release

  /** A key event; its modifier keys are never inspected, so they are not modelled. */
  datatype KeyEvent = KeyEvent(code: KeyCode, kind: KeyEventKind)

  /** A terminal event: a key, or anything else (mouse, resize, focus, paste). */
  datatype Event = Key(key: KeyEvent) | NonKey

  /** The message shown in the `Error` state. */
  const DownloadFailedMessage: string := "Download failed. Check your connection and URL."

  /** The values of the `App` fields, together with the loop's spinner counter. */
  datatype AppModel = AppModel(
    state: AppState,
    playlistName: string,
    url: string,
    errorMessage: string,
    filesDownloaded: seq<string>,
    downloadOutputFinal: string,
    spinnerFrame: u32)

  /** `App::new` with the spinner counter at zero. */
  function Initial(): AppModel {
    AppModel(InputPlaylistName, "", "", "", [], "", 0)
  }

  /** Progress along `InputPlaylistName → InputUrl → Downloading → Done | Error`. */
  function Rank(s: AppState): nat {
    match s
    case InputPlaylistName => 0
    case InputUrl => 1
    case Downloading => 2
    case Done => 3
    case Error => 3
  }

  /**
   * What holds of every state the loop reaches: the name and the url are
   * non-empty once their entry state is left; the error message is set exactly
   * in `Error`; the file list is filled only in `Done` and holds only ".m4a"
   * names; the final output is copied only when the download has ended; the
   * spinner only turns once the download has started.
   */
  ghost predicate Consistent(m: AppModel) {
    (Rank(m.state) >= 1 ==> m.playlistName != "")
    && (Rank(m.state) >= 2 ==> m.url != "")
    && (m.state == Error ==> m.errorMessage == DownloadFailedMessage)
    && (m.state != Error ==> m.errorMessage == "")
    && (m.state != Done ==> m.filesDownloaded == [])
    && (forall k :: 0 <= k < |m.filesDownloaded| ==> HasAudioExtension(m.filesDownloaded[k]))
    && (Rank(m.state) < 3 ==> m.downloadOutputFinal == "")
    && (Rank(m.state) < 2 ==> m.spinnerFrame == 0)
  }

  /** `String::pop`: the last character goes; an empty string stays empty. */
  function Pop(s: string): (r: string)
    ensures s == "" ==> r == ""
    ensures s != "" ==> r + [s[|s| - 1]] == s
  {
    if s == "" then s else s[..|s| - 1]
  }

  predicate IsPress(ev: Event) {
    ev.Key? && ev.key.kind == Press
  }

  /** A pressed key with the given code. */
  function Pressed(code: KeyCode): Event {
    Key(KeyEvent(code, Press))
  }

  /**
   * The blocking branch of the main loop for one event, in any state but
   * `Downloading`: the new field values, and whether the loop breaks.
   */
  function KeyTransition(m: AppModel, ev: Event): (AppModel, bool)
    requires m.state != Downloading
  {
    if !IsPress(ev) then (m, false)
    else
      var code := ev.key.code;
      if m.state == InputPlaylistName then
        if code == Enter then (if m.playlistName != "" then m.(state := InputUrl) else m, false)
        else if code.Char? then (m.(playlistName := m.playlistName + [code.c]), false)
        else if code == Backspace then (m.(playlistName := Pop(m.playlistName)), false)
        else (m, code == Esc)
      else if m.state == InputUrl then
        if code == Enter then (if m.url != "" then m.(state := Downloading) else m, false)
        else if code.Char? then (m.(url := m.url + [code.c]), false)
        else if code == Backspace then (m.(url := Pop(m.url)), false)
        else (m, code == Esc)
      else
        (m, code == Enter)
  }

  /**
   * `check_download` on the progress read at this instant: nothing until the
   * worker is done; then the output is copied and the state becomes `Done`
   * with the ".m4a" files of the listing, or `Error` with the fixed message.
   */
  function CheckOutcome(m: AppModel, progress: Progress, listing: ReadDir): (AppModel, bool) {
    if !progress.done then (m, false)
    else
      var copied := m.(downloadOutputFinal := progress.output);
      if progress.success then (copied.(filesDownloaded := FilesFound(listing), state := Done), true)
      else (copied.(errorMessage := DownloadFailedMessage, state := Error), true)
  }

  /** Is the polled event the Esc key? Its press/release kind is not checked. */
  predicate IsEsc(polled: Option<Event>) {
    polled.Some? && polled.value.Key? && polled.value.key.code == Esc
  }

  /**
   * The polling branch of the main loop, taken while `Downloading`: the spinner
   * counter advances with wrap-around, an Esc key breaks the loop, and otherwise
   * `check_download` runs.
   */
  function TickTransition(m: AppModel, polled: Option<Event>, progress: Progress, listing: ReadDir): (AppModel, bool)
    requires m.state == Downloading
  {
    var turned := m.(spinnerFrame := WrappingIncrement(m.spinnerFrame));
    if IsEsc(polled) then (turned, true)
    else (CheckOutcome(turned, progress, listing).0, false)
  }

  // ---------------------------------------------------------------------------
  // Properties of one event in the blocking branch

  /** The loop breaks on Esc in the two entry states and on Enter in the two final states, and on nothing else. */
  lemma KeyExit(m: AppModel, ev: Event)
    requires m.state != Downloading
    ensures KeyTransition(m, ev).1 <==>
      IsPress(ev) && ((Rank(m.state) <= 1 && ev.key.code == Esc) || (Rank(m.state) == 3 && ev.key.code == Enter))
  {
  }

  /** Only key presses count: releases, repeats and non-key events change nothing. */
  lemma NonPressIgnored(m: AppModel, ev: Event)
    requires m.state != Downloading && !IsPress(ev)
    ensures KeyTransition(m, ev) == (m, false)
  {
  }

  /** Enter in `InputPlaylistName` advances exactly when the name is non-empty, and touches no text. */
  lemma ConfirmName(m: AppModel)
    requires m.state == InputPlaylistName
    ensures var (m', exit) := KeyTransition(m, Pressed(Enter));
      !exit
      && (m.playlistName == "" ==> m' == m)
      && (m.playlistName != "" ==> m'.state == InputUrl && m' == m.(state := InputUrl))
  {
  }

  /** Enter in `InputUrl` starts the download exactly when the url is non-empty, and touches no text. */
  lemma ConfirmUrl(m: AppModel)
    requires m.state == InputUrl
    ensures var (m', exit) := KeyTransition(m, Pressed(Enter));
      !exit
      && (m.url == "" ==> m' == m)
      && (m.url != "" ==> m' == m.(state := Downloading))
  {
  }

  /** Typing edits the field of the current entry state and nothing else. */
  lemma EditKeys(m: AppModel, c: char)
    requires m.state == InputPlaylistName || m.state == InputUrl
    ensures var (typed, exit1) := KeyTransition(m, Pressed(Char(c)));
      var (erased, exit2) := KeyTransition(m, Pressed(Backspace));
      !exit1 && !exit2
      && (m.state == InputPlaylistName ==>
            typed == m.(playlistName := m.playlistName + [c])
            && erased == m.(playlistName := Pop(m.playlistName)))
      && (m.state == InputUrl ==>
            typed == m.(url := m.url + [c])
            && erased == m.(url := Pop(m.url)))
  {
  }

  /** In `Done` and `Error` no key changes anything. */
  lemma FinalStatesStay(m: AppModel, ev: Event)
    requires Rank(m.state) == 3
    ensures KeyTransition(m, ev).0 == m
  {
  }

  /**
   * Which field an event may change: the name only in `InputPlaylistName`, the
   * url only in `InputUrl`, the result fields never; the state only moves one
   * step forward, on Enter, past a non-empty field.
   */
  lemma KeyFrame(m: AppModel, ev: Event)
    requires m.state != Downloading
    ensures var m' := KeyTransition(m, ev).0;
      (m.state != InputPlaylistName ==> m'.playlistName == m.playlistName)
      && (m.state != InputUrl ==> m'.url == m.url)
      && m'.errorMessage == m.errorMessage
      && m'.filesDownloaded == m.filesDownloaded
      && m'.downloadOutputFinal == m.downloadOutputFinal
      && m'.spinnerFrame == m.spinnerFrame
      && (m'.state != m.state ==>
            ev == Pressed(Enter) && Rank(m'.state) == Rank(m.state) + 1
            && (m.state == InputPlaylistName ==> m'.state == InputUrl && m.playlistName != "")
            && (m.state == InputUrl ==> m'.state == Downloading && m.url != ""))
  {
  }

  lemma KeyKeepsConsistent(m: AppModel, ev: Event)
    requires m.state != Downloading && Consistent(m)
    ensures Consistent(KeyTransition(m, ev).0)
  {
  }

  // ---------------------------------------------------------------------------
  // Properties of the downloading tick

  /**
   * `check_download`: before `done` it reports false and changes nothing; after,
   * it reports true, copies the output, and reaches `Done` with exactly the
   * ".m4a" files of the listing, or `Error` with the fixed message.
   */
  lemma CheckOutcomeCases(m: AppModel, progress: Progress, listing: ReadDir)
    ensures var (m', finished) := CheckOutcome(m, progress, listing);
      finished == progress.done
      && (!progress.done ==> m' == m)
      && (progress.done ==> m'.downloadOutputFinal == progress.output)
      && (progress.done && progress.success ==>
            m'.state == Done && m'.filesDownloaded == FilesFound(listing)
            && m'.errorMessage == m.errorMessage)
      && (progress.done && !progress.success ==>
            m'.state == Error && m'.errorMessage == DownloadFailedMessage
            && m'.filesDownloaded == m.filesDownloaded)
      && m'.playlistName == m.playlistName && m'.url == m.url && m'.spinnerFrame == m.spinnerFrame
  {
  }

  /** Esc ends the loop while downloading whatever the worker has done, and starts no transition. */
  lemma EscCancelsDownload(m: AppModel, polled: Option<Event>, progress: Progress, listing: ReadDir)
    requires m.state == Downloading && IsEsc(polled)
    ensures var (m', exit) := TickTransition(m, polled, progress, listing);
      exit && m'.state == Downloading && m' == m.(spinnerFrame := WrappingIncrement(m.spinnerFrame))
  {
  }

  lemma TickKeepsConsistent(m: AppModel, polled: Option<Event>, progress: Progress, listing: ReadDir)
    requires m.state == Downloading && Consistent(m)
    ensures var m' := TickTransition(m, polled, progress, listing).0;
      Consistent(m') && Rank(m'.state) >= Rank(m.state)
  {
  }

  /**
   * A tick that reads the worker's shared state after any number `k` of its
   * writes: until the last write only the spinner moves; at the last write the
   * final output is copied and the state is `Done` exactly when the run
   * succeeded (so a spawn failure always ends in `Error`).
   */
  lemma TickObservesWorker(m: AppModel, polled: Option<Event>, launch: Launch, k: nat, listing: ReadDir)
    requires m.state == Downloading && !IsEsc(polled)
    requires k <= |WorkerSteps(launch)|
    ensures var (m', exit) := TickTransition(m, polled, Replay(Fresh, WorkerSteps(launch)[..k]), listing);
      !exit
      && (k < |WorkerSteps(launch)| ==> m' == m.(spinnerFrame := WrappingIncrement(m.spinnerFrame)))
      && (k == |WorkerSteps(launch)| ==>
            m'.downloadOutputFinal == Final(launch).output
            && (m'.state == Done <==> LaunchSucceeded(launch))
            && (m'.state == Error <==> !LaunchSucceeded(launch))
            && (m'.state == Done ==> m'.filesDownloaded == FilesFound(listing)))
  {
    DonePublishedLast(launch, k);
    WorkerOutcome(launch);
  }

  // ---------------------------------------------------------------------------
  // Runs of several events through the blocking branch

  /**
   * The blocking branch applied to the events in turn, until the loop breaks or
   * the download starts (after which the polling branch takes over).
   */
  function Session(m: AppModel, events: seq<Event>): (AppModel, bool)
    decreases |events|
  {
    if events == [] || m.state == Downloading then (m, false)
    else
      var r := KeyTransition(m, events[0]);
      if r.1 then r else Session(r.0, events[1..])
  }

  lemma {:induction false} SessionAppend(m: AppModel, a: seq<Event>, b: seq<Event>)
    requires !Session(m, a).1
    ensures Session(m, a + b) == Session(Session(m, a).0, b)
    decreases |a|
  {
    if a == [] {
      assert a + b == b;
    } else if m.state != Downloading {
      var r := KeyTransition(m, a[0]);
      assert (a + b)[0] == a[0] && (a + b)[1..] == a[1..] + b;
      SessionAppend(r.0, a[1..], b);
    }
  }

  predicate IsEditKey(code: KeyCode) {
    code.Char? || code == Backspace
  }

  /** The text that results from typing the keys into `s`: characters are appended, Backspace deletes the last one. */
  function Typed(s: string, keys: seq<KeyCode>): string
    decreases |keys|
  {
    if keys == [] then s
    else
      var next := if keys[0].Char? then s + [keys[0].c] else if keys[0] == Backspace then Pop(s) else s;
      Typed(next, keys[1..])
  }

  /** Each key pressed, in order. */
  function PressAll(keys: seq<KeyCode>): (events: seq<Event>)
    ensures |events| == |keys|
    ensures forall i :: 0 <= i < |keys| ==> events[i] == Pressed(keys[i])
  {
    if keys == [] then [] else [Pressed(keys[0])] + PressAll(keys[1..])
  }

  /**
   * Typing into the name field: the name becomes the typed text, respecting
   * deletes, nothing else changes and the loop does not break.
   */
  lemma {:induction false} TypingName(m: AppModel, keys: seq<KeyCode>)
    requires m.state == InputPlaylistName
    requires forall i :: 0 <= i < |keys| ==> IsEditKey(keys[i])
    ensures Session(m, PressAll(keys)) == (m.(playlistName := Typed(m.playlistName, keys)), false)
    decreases |keys|
  {
    if keys != [] {
      var events := PressAll(keys);
      assert events[1..] == PressAll(keys[1..]);
      var m1 := KeyTransition(m, events[0]).0;
      TypingName(m1, keys[1..]);
    }
  }

  /** Typing into the url field, in the same way. */
  lemma {:induction false} TypingUrl(m: AppModel, keys: seq<KeyCode>)
    requires m.state == InputUrl
    requires forall i :: 0 <= i < |keys| ==> IsEditKey(keys[i])
    ensures Session(m, PressAll(keys)) == (m.(url := Typed(m.url, keys)), false)
    decreases |keys|
  {
    if keys != [] {
      var events := PressAll(keys);
      assert events[1..] == PressAll(keys[1..]);
      var m1 := KeyTransition(m, events[0]).0;
      TypingUrl(m1, keys[1..]);
    }
  }

  /**
   * The whole entry protocol from a fresh start: type a name, Enter, type a url,
   * Enter. With both typed texts non-empty the download starts with exactly
   * those texts.
   */
  lemma EntryProtocol(nameKeys: seq<KeyCode>, urlKeys: seq<KeyCode>)
    requires forall i :: 0 <= i < |nameKeys| ==> IsEditKey(nameKeys[i])
    requires forall i :: 0 <= i < |urlKeys| ==> IsEditKey(urlKeys[i])
    requires Typed("", nameKeys) != "" && Typed("", urlKeys) != ""
    ensures Session(Initial(), PressAll(nameKeys) + [Pressed(Enter)] + PressAll(urlKeys) + [Pressed(Enter)])
      == (Initial().(state := Downloading, playlistName := Typed("", nameKeys), url := Typed("", urlKeys)), false)
  {
    var m0 := Initial();
    var a := PressAll(nameKeys);
    var b := [Pressed(Enter)];
    var c := PressAll(urlKeys);
    TypingName(m0, nameKeys);
    var m1 := m0.(playlistName := Typed("", nameKeys));
    SessionAppend(m0, a, b);
    var m2 := m1.(state := InputUrl);
    assert Session(m1, b) == (m2, false);
    SessionAppend(m0, a + b, c);
    TypingUrl(m2, urlKeys);
    var m3 := m2.(url := Typed("", urlKeys));
    SessionAppend(m0, a + b + c, b);
    assert Session(m3, b) == (m3.(state := Downloading), false);
  }

  /**
   * The same script with an empty name: the first Enter does nothing, so the
   * url keys are typed into the name field, and the second Enter moves on to
   * `InputUrl` with that text as the name, or does nothing if it is empty too.
   */
  lemma EmptyNameEntry(nameKeys: seq<KeyCode>, urlKeys: seq<KeyCode>)
    requires forall i :: 0 <= i < |nameKeys| ==> IsEditKey(nameKeys[i])
    requires forall i :: 0 <= i < |urlKeys| ==> IsEditKey(urlKeys[i])
    requires Typed("", nameKeys) == ""
    ensures var name := Typed("", urlKeys);
      Session(Initial(), PressAll(nameKeys) + [Pressed(Enter)] + PressAll(urlKeys) + [Pressed(Enter)])
        == (Initial().(state := if name != "" then InputUrl else InputPlaylistName, playlistName := name), false)
  {
    var m0 := Initial();
    var a := PressAll(nameKeys);
    var b := [Pressed(Enter)];
    var c := PressAll(urlKeys);
    TypingName(m0, nameKeys);
    assert m0.(playlistName := Typed("", nameKeys)) == m0;
    SessionAppend(m0, a, b);
    assert Session(m0, b) == (m0, false);
    SessionAppend(m0, a + b, c);
    TypingName(m0, urlKeys);
    var name := Typed("", urlKeys);
    var m1 := m0.(playlistName := name);
    SessionAppend(m0, a + b + c, b);
    assert Session(m1, b) == (m1.(state := if name != "" then InputUrl else InputPlaylistName), false);
  }

  /** Over any run of the blocking branch the invariant holds and the state never moves backwards. */
  lemma {:induction false} SessionKeepsConsistent(m: AppModel, events: seq<Event>)
    requires Consistent(m)
    ensures Consistent(Session(m, events).0)
    ensures Rank(Session(m, events).0.state) >= Rank(m.state)
    decreases |events|
  {
    if events != [] && m.state != Downloading {
      var r := KeyTransition(m, events[0]);
      KeyKeepsConsistent(m, events[0]);
      KeyFrame(m, events[0]);
      if !r.1 {
        SessionKeepsConsistent(r.0, events[1..]);
      }
    }
  }

  // ---------------------------------------------------------------------------
  // The record itself, updated in place by the loop

  class App {
    var state: AppState
    var playlistName: string
    var url: string
    var errorMessage: string
    var filesDownloaded: seq<string>
    var downloadOutputFinal: string
    /** The loop's spinner counter, a local of the main loop in the program. */
    var spinnerFrame: u32

    function Model(): AppModel
      reads this
    {
      AppModel(state, playlistName, url, errorMessage, filesDownloaded, downloadOutputFinal, spinnerFrame)
    }

    ghost predicate Valid()
      reads this
    {
      Consistent(Model())
    }

    /** `App::new`, with the spinner counter at zero as the loop starts it. */
    constructor ()
      ensures state == InputPlaylistName
      ensures playlistName == "" && url == "" && errorMessage == ""
      ensures filesDownloaded == [] && downloadOutputFinal == "" && spinnerFrame == 0
      ensures Model() == Initial() && Valid()
    {
      state := InputPlaylistName;
      playlistName := "";
      url := "";
      errorMessage := "";
      filesDownloaded := [];
      downloadOutputFinal := "";
      spinnerFrame := 0;
    }

    /** `check_download`, on the worker's shared state and the directory listing read now. */
    method CheckDownload(progress: Progress, listing: ReadDir) returns (finished: bool)
      modifies this
      ensures (Model(), finished) == CheckOutcome(old(Model()), progress, listing)
    {
      if progress.done {
        downloadOutputFinal := progress.output;
        if progress.success {
          filesDownloaded := FilesFound(listing);
          state := Done;
        } else {
          errorMessage := DownloadFailedMessage;
          state := Error;
        }
        return true;
      }
      return false;
    }

    /** The blocking branch of the main loop: one event read in a state other than `Downloading`. */
    method HandleKey(ev: Event) returns (exit: bool)
      requires state != Downloading && Valid()
      modifies this
      ensures (Model(), exit) == KeyTransition(old(Model()), ev)
      ensures Valid()
    {
      KeyKeepsConsistent(Model(), ev);
      exit := false;
      if ev.Key? && ev.key.kind == Press {
        var code := ev.key.code;
        if state == InputPlaylistName {
          if code == Enter {
            if playlistName != "" {
              state := InputUrl;
            }
          } else if code.Char? {
            playlistName := playlistName + [code.c];
          } else if code == Backspace {
            if playlistName != "" {
              playlistName := playlistName[..|playlistName| - 1];
            }
          } else if code == Esc {
            exit := true;
          }
        } else if state == InputUrl {
          if code == Enter {
            if url != "" {
              state := Downloading;
            }
          } else if code.Char? {
            url := url + [code.c];
          } else if code == Backspace {
            if url != "" {
              url := url[..|url| - 1];
            }
          } else if code == Esc {
            exit := true;
          }
        } else {
          if code == Enter {
            exit := true;
          }
        }
      }
    }

    /** The polling branch of the main loop: one tick while `Downloading`. */
    method DownloadTick(polled: Option<Event>, progress: Progress, listing: ReadDir) returns (exit: bool)
      requires state == Downloading && Valid()
      modifies this
      ensures (Model(), exit) == TickTransition(old(Model()), polled, progress, listing)
      ensures Valid()
    {
      TickKeepsConsistent(Model(), polled, progress, listing);
      spinnerFrame := WrappingIncrement(spinnerFrame);
      if polled.Some? && polled.value.Key? && polled.value.key.code == Esc {
        return true;
      }
      var _ := CheckDownload(progress, listing);
      return false;
    }
  }
}
