/**
 * End-to-end runs of the model: a name and a url are typed from a fresh start,
 * the download starts, and the tick reads the worker's final shared state.
 */
module Scenarios {
  import opened Wrappers
  import opened Listing
  import opened Worker
  import opened Tui

  /** The key codes that type the characters of `s`. */
  function CharKeys(s: string): (keys: seq<KeyCode>)
    ensures |keys| == |s|
    ensures forall i :: 0 <= i < |s| ==> keys[i] == Char(s[i])
  {
    if s == "" then [] else [Char(s[0])] + CharKeys(s[1..])
  }

  lemma {:induction false} TypedChars(prefix: string, s: string)
    ensures Typed(prefix, CharKeys(s)) == prefix + s
    decreases |s|
  {
    if s != "" {
      var keys := CharKeys(s);
      assert keys[1..] == CharKeys(s[1..]);
      TypedChars(prefix + [s[0]], s[1..]);
      assert prefix + [s[0]] + s[1..] == prefix + s;
    }
  }

  /** Typing `name`, Enter, `url`, Enter. */
  function EntryScript(name: string, url: string): seq<Event> {
    PressAll(CharKeys(name)) + [Pressed(Enter)] + PressAll(CharKeys(url)) + [Pressed(Enter)]
  }

  /** The state in which the download starts after the entry script. */
  lemma StartDownload(name: string, url: string)
    requires name != "" && url != ""
    ensures Session(Initial(), EntryScript(name, url))
      == (Initial().(state := Downloading, playlistName := name, url := url), false)
  {
    TypedChars("", name);
    TypedChars("", url);
    assert "" + name == name && "" + url == url;
    EntryProtocol(CharKeys(name), CharKeys(url));
  }

  /** Name "Chill", exit status 0, a directory holding "track.m4a": `Done` with exactly that file. */
  lemma ScenarioSuccess(url: string, arrivals: seq<Arrival>)
    requires url != ""
    ensures var m := Session(Initial(), EntryScript("Chill", url)).0;
      m.state == Downloading &&
      var launch := Spawned(arrivals, Exited(Code(0)));
      var (m', exit) := TickTransition(m, None, Final(launch), Listed([Item("track.m4a", true)]));
      !exit && m'.state == Done && m'.filesDownloaded == ["track.m4a"] && m'.playlistName == "Chill"
  {
    StartDownload("Chill", url);
    WorkerOutcome(Spawned(arrivals, Exited(Code(0))));
    AudioExtensionIffSuffix("track.m4a");
    assert Kept(Item("track.m4a", true));
    assert [Item("track.m4a", true)][1..] == [];
  }

  /** Exit status 1: `Error` with the fixed message, whatever the tool printed. */
  lemma ScenarioExitFailure(name: string, url: string, arrivals: seq<Arrival>, listing: ReadDir)
    requires name != "" && url != ""
    ensures var m := Session(Initial(), EntryScript(name, url)).0;
      m.state == Downloading &&
      var launch := Spawned(arrivals, Exited(Code(1)));
      var (m', exit) := TickTransition(m, None, Final(launch), listing);
      !exit && m'.state == Error && m'.errorMessage == DownloadFailedMessage && m'.filesDownloaded == []
  {
    StartDownload(name, url);
    WorkerOutcome(Spawned(arrivals, Exited(Code(1))));
  }

  /** The tool cannot be started: the worker reports failure, with no wait, and the app ends in `Error`. */
  lemma ScenarioSpawnFailure(name: string, url: string, reason: string, listing: ReadDir)
    requires name != "" && url != ""
    ensures !Final(SpawnFailed(reason)).success
    ensures Final(SpawnFailed(reason)).output == "Failed to spawn: " + reason
    ensures var m := Session(Initial(), EntryScript(name, url)).0;
      m.state == Downloading &&
      var (m', exit) := TickTransition(m, None, Final(SpawnFailed(reason)), listing);
      !exit && m'.state == Error && m'.errorMessage == DownloadFailedMessage
  {
    StartDownload(name, url);
    WorkerOutcome(SpawnFailed(reason));
  }

  /** Esc while downloading breaks the loop after any number of the worker's writes, finished or not. */
  lemma ScenarioCancel(name: string, url: string, launch: Launch, k: nat, kind: KeyEventKind, listing: ReadDir)
    requires name != "" && url != ""
    requires k <= |WorkerSteps(launch)|
    ensures var m := Session(Initial(), EntryScript(name, url)).0;
      m.state == Downloading &&
      var progress := Replay(Fresh, WorkerSteps(launch)[..k]);
      var (m', exit) := TickTransition(m, Some(Key(KeyEvent(Esc, kind))), progress, listing);
      exit && m'.state == Downloading
  {
    StartDownload(name, url);
  }
}
