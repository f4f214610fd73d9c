/** The extension's mutable state and the operations that change it: the
    module-level `settings`, the settings panel and its event handlers, the
    hooks on the host's send pathway, and `init`. */
module Extension {
  import opened Text
  import opened Config
  import opened Panel
  import opened Interceptor
  import opened Bootstrap

  /** What the host page offers the hooks at one attempt: a global
      `sendMessageAsUser` function, a send button, a send form, and the
      `#send_textarea` message field. */
  datatype HostPage = HostPage(sendFunction: bool, sendButton: bool, sendForm: bool, sendField: bool)

  class SheetPrompt {
    /** The module-level `settings` record. */
    var settings: Settings
    /** The storage entry under `sheet_prompt_settings`. */
    var storage: Stored
    /** Text and colour of the panel's status span. */
    var status: StatusView
    /** A `.sheet-prompt-container` exists in the page. */
    var panelPresent: bool
    /** Successful `addUI` calls so far. */
    var mounts: nat
    /** Calls of `interceptMessages` so far. */
    var interceptions: nat
    /** Wrappers stacked on the host's `sendMessageAsUser`. */
    var wrappers: nat
    /** Listeners registered on the send button, the send form, and for
        keydown on the message field. */
    var clickListeners: nat
    var submitListeners: nat
    var keyListeners: nat
    /** The value of the host's message field. */
    var field: string

    /** At most one panel is ever mounted, and the flag says whether it is. */
    ghost predicate PanelUnique()
      reads this
    {
      mounts <= 1 && (panelPresent <==> mounts == 1)
    }

    /** Message interception starts once per mount and only after it, and
        no hook exists before interception started. */
    ghost predicate Valid()
      reads this
    {
      PanelUnique() && interceptions == mounts
      && (interceptions == 0 ==> wrappers == 0 && clickListeners == 0 && submitListeners == 0 && keyListeners == 0)
    }

    /** The hooks the first `setupHooks` round leaves on a page that had none:
        one of each kind whose targets exist. */
    ghost predicate HooksAfterFirstRound(page: HostPage)
      reads this
    {
      wrappers == (if page.sendFunction then 1 else 0)
      && clickListeners == (if page.sendButton && page.sendField then 1 else 0)
      && submitListeners == (if page.sendForm && page.sendField then 1 else 0)
      && keyListeners == (if page.sendField then 1 else 0)
    }

    /** Page load: default settings, no panel, no hooks. */
    constructor (stored: Stored, message: string)
      ensures Valid()
      ensures settings == DefaultSettings && storage == stored && status == Ready && field == message
      ensures !panelPresent && mounts == 0 && interceptions == 0
    {
      settings := DefaultSettings;
      storage := stored;
      status := Ready;
      panelPresent := false;
      mounts, interceptions := 0, 0;
      wrappers, clickListeners, submitListeners, keyListeners := 0, 0, 0, 0;
      field := message;
    }

    /** `loadSettings`. */
    method LoadSettings()
      modifies this`settings
      ensures settings == Load(old(settings), storage)
    {
      settings := Load(settings, storage);
    }

    /** `saveSettings`; a failed write (`writeOk` false) is swallowed. */
    method SaveSettings(writeOk: bool)
      modifies this`storage
      ensures storage == if writeOk then Save(settings) else old(storage)
    {
      if writeOk {
        storage := Save(settings);
      }
    }

    /** `updateStatus`. */
    method UpdateStatus()
      modifies this`status
      ensures status == StatusOf(settings)
    {
      status := StatusOf(settings);
    }

    /** The checkbox `change` handler. */
    method OnToggleChange(checked: bool, writeOk: bool)
      requires panelPresent
      modifies this`settings, this`storage, this`status
      ensures settings == old(settings).(enabled := checked)
      ensures storage == if writeOk then Save(settings) else old(storage)
      ensures status == StatusOf(settings)
    {
      settings := settings.(enabled := checked);
      SaveSettings(writeOk);
      UpdateStatus();
    }

    /** The text area `input` handler: the raw, untrimmed value is stored. */
    method OnSheetInput(value: string, writeOk: bool)
      requires panelPresent
      modifies this`settings, this`storage, this`status
      ensures settings == old(settings).(sheetContent := value)
      ensures storage == if writeOk then Save(settings) else old(storage)
      ensures status == StatusOf(settings)
    {
      settings := settings.(sheetContent := value);
      SaveSettings(writeOk);
      UpdateStatus();
    }

    /** `addUI`: mount the panel when a location is found and no panel
        exists; binding the panel's events refreshes the status. */
    method AddUI(present: set<Candidate>) returns (ok: bool)
      requires PanelUnique()
      modifies this`panelPresent, this`mounts, this`status
      ensures ok == (FindUILocation(present).Some? && !old(panelPresent))
      ensures panelPresent == (old(panelPresent) || ok)
      ensures mounts == old(mounts) + (if ok then 1 else 0)
      ensures status == if ok then StatusOf(settings) else old(status)
      ensures PanelUnique()
    {
      var target := FindUILocation(present);
      if target.Some? && !panelPresent {
        panelPresent := true;
        mounts := mounts + 1;
        UpdateStatus();
        ok := true;
      } else {
        ok := false;
      }
    }

    /** `setupHooks`: every hook whose target exists is added again; none is
        guarded against having been added before. */
    method SetupHooks(page: HostPage)
      requires interceptions > 0
      modifies this`wrappers, this`clickListeners, this`submitListeners, this`keyListeners
      ensures wrappers == old(wrappers) + (if page.sendFunction then 1 else 0)
      ensures clickListeners == old(clickListeners) + (if page.sendButton && page.sendField then 1 else 0)
      ensures submitListeners == old(submitListeners) + (if page.sendForm && page.sendField then 1 else 0)
      ensures keyListeners == old(keyListeners) + (if page.sendField then 1 else 0)
    {
      if page.sendFunction {
        wrappers := wrappers + 1;
      }
      if page.sendButton && page.sendField {
        clickListeners := clickListeners + 1;
      }
      if page.sendForm && page.sendField {
        submitListeners := submitListeners + 1;
      }
      if page.sendField {
        keyListeners := keyListeners + 1;
      }
    }

    /** `interceptMessages`, called right after a successful `addUI`: the
        first round of hooks. */
    method InterceptMessages(page: HostPage)
      requires PanelUnique() && mounts == interceptions + 1
      requires wrappers == 0 && clickListeners == 0 && submitListeners == 0 && keyListeners == 0
      modifies this`interceptions, this`wrappers, this`clickListeners, this`submitListeners, this`keyListeners
      ensures Valid()
      ensures interceptions == old(interceptions) + 1
      ensures HooksAfterFirstRound(page)
    {
      interceptions := interceptions + 1;
      SetupHooks(page);
    }

    /** `retryInit`: up to `maxAttempts` calls of `addUI`, the `k`-th seeing
        the page `snapshots[k]` (no candidate once they run out); the first
        success starts interception. */
    method RetryInit(snapshots: seq<set<Candidate>>, page: HostPage) returns (mounted: bool, attempts: nat)
      requires Valid()
      modifies this`panelPresent, this`mounts, this`status, this`interceptions
      modifies this`wrappers, this`clickListeners, this`submitListeners, this`keyListeners
      ensures Valid()
      ensures RetryResult(mounted, attempts) == Bootstrap.RetryInit(old(panelPresent), TargetsFound(snapshots))
      ensures panelPresent == (old(panelPresent) || mounted)
      ensures interceptions == old(interceptions) + (if mounted then 1 else 0)
      ensures mounted ==> status == StatusOf(settings) && HooksAfterFirstRound(page)
      ensures !mounted ==> (status == old(status) && wrappers == old(wrappers)
        && clickListeners == old(clickListeners) && submitListeners == old(submitListeners)
        && keyListeners == old(keyListeners))
    {
      ghost var found := TargetsFound(snapshots);
      FindUILocationSpec({});
      attempts, mounted := 0, false;
      var done := false;
      while !done
        invariant Valid()
        invariant attempts <= MaxAttempts
        invariant !done ==> (attempts < MaxAttempts && !mounted
          && panelPresent == old(panelPresent) && interceptions == old(interceptions)
          && TryAgain(old(panelPresent), found, attempts) == Bootstrap.RetryInit(old(panelPresent), found)
          && status == old(status) && wrappers == old(wrappers)
          && clickListeners == old(clickListeners) && submitListeners == old(submitListeners)
          && keyListeners == old(keyListeners))
        invariant done ==> (RetryResult(mounted, attempts) == Bootstrap.RetryInit(old(panelPresent), found)
          && panelPresent == (old(panelPresent) || mounted)
          && interceptions == old(interceptions) + (if mounted then 1 else 0)
          && (mounted ==> status == StatusOf(settings) && HooksAfterFirstRound(page))
          && (!mounted ==> (status == old(status) && wrappers == old(wrappers)
            && clickListeners == old(clickListeners) && submitListeners == old(submitListeners)
            && keyListeners == old(keyListeners))))
        decreases MaxAttempts - attempts
      {
        var present := if attempts < |snapshots| then snapshots[attempts] else {};
        assert FindUILocation(present).Some? == TargetFound(found, attempts);
        attempts := attempts + 1;
        var ok := AddUI(present);
        if ok {
          InterceptMessages(page);
          mounted, done := true, true;
        } else if attempts < MaxAttempts {
          // the next attempt follows two seconds later
        } else {
          done := true;
        }
      }
    }

    /** `init`: load the settings, try `addUI` at once, and fall back to the
        delayed retry loop. Any number of calls keeps `Valid()`, so the panel
        is mounted and interception started at most once. */
    method Init(present: set<Candidate>, snapshots: seq<set<Candidate>>, page: HostPage) returns (mounted: bool)
      requires Valid()
      modifies this
      ensures Valid()
      ensures settings == Load(old(settings), storage)
      ensures storage == old(storage) && field == old(field)
      ensures mounted == (!old(panelPresent)
        && (FindUILocation(present).Some? || Bootstrap.RetryInit(false, TargetsFound(snapshots)).mounted))
      ensures panelPresent == (old(panelPresent) || mounted)
      ensures interceptions == old(interceptions) + (if mounted then 1 else 0)
      ensures mounted ==> status == StatusOf(settings) && HooksAfterFirstRound(page)
      ensures !mounted ==> (status == old(status) && wrappers == old(wrappers)
        && clickListeners == old(clickListeners) && submitListeners == old(submitListeners)
        && keyListeners == old(keyListeners))
    {
      LoadSettings();
      var ok := AddUI(present);
      if ok {
        InterceptMessages(page);
        mounted := true;
        return;
      }
      var attempts;
      mounted, attempts := RetryInit(snapshots, page);
    }

    /** A later retry of the hooks (the 5-second interval or a DOM mutation). */
    method RetryHooks(page: HostPage)
      requires Valid() && interceptions > 0
      modifies this`wrappers, this`clickListeners, this`submitListeners, this`keyListeners
      ensures Valid()
      ensures wrappers == old(wrappers) + (if page.sendFunction then 1 else 0)
      ensures clickListeners == old(clickListeners) + (if page.sendButton && page.sendField then 1 else 0)
      ensures submitListeners == old(submitListeners) + (if page.sendForm && page.sendField then 1 else 0)
      ensures keyListeners == old(keyListeners) + (if page.sendField then 1 else 0)
    {
      SetupHooks(page);
    }

    /** The host calls `window.sendMessageAsUser(text)`: the text reaching the
        original function carries the sheet content at most once, however many
        wrappers retries have stacked. */
    method SendMessageAsUser(text: string) returns (sent: string)
      ensures sent == if wrappers == 0 then text else AppendSheetContent(settings, text)
    {
      sent := Deliver(wrappers, settings, text);
    }

    /** A click on the send button runs each registered click listener. */
    method ClickSend()
      modifies this`field
      ensures field == if clickListeners == 0 then old(field) else RewriteField(settings, old(field))
    {
      field := RewriteRepeated(clickListeners, settings, field);
    }

    /** Submitting the send form runs each registered submit listener. */
    method SubmitForm()
      modifies this`field
      ensures field == if submitListeners == 0 then old(field) else RewriteField(settings, old(field))
    {
      field := RewriteRepeated(submitListeners, settings, field);
    }

    /** A keydown in the message field: only a plain Enter (no Shift) runs
        the keydown listeners. */
    method KeyDown(key: string, shiftKey: bool)
      modifies this`field
      ensures field == if key != "Enter" || shiftKey || keyListeners == 0 then old(field)
                       else RewriteField(settings, old(field))
    {
      if key == "Enter" && !shiftKey {
        field := RewriteRepeated(keyListeners, settings, field);
      }
    }
  }

  /** Page start-up: `init` runs once on `DOMContentLoaded` (or after a
      delay when the document has already loaded), and once more from
      jQuery's ready callback. The second call loads the same entry again and
      finds the panel present, so it neither remounts nor drops or duplicates
      the first round of hooks, and the status stays current. */
  method Startup(stored: Stored, message: string, page: HostPage,
                 present1: set<Candidate>, snapshots1: seq<set<Candidate>>,
                 present2: set<Candidate>, snapshots2: seq<set<Candidate>>)
    returns (ext: SheetPrompt)
    ensures ext.Valid()
    ensures ext.settings == Load(DefaultSettings, stored) && ext.storage == stored && ext.field == message
    ensures ext.panelPresent == (FindUILocation(present1).Some? || Bootstrap.RetryInit(false, TargetsFound(snapshots1)).mounted
      || FindUILocation(present2).Some? || Bootstrap.RetryInit(false, TargetsFound(snapshots2)).mounted)
    ensures ext.panelPresent ==> ext.interceptions == 1 && ext.status == StatusOf(ext.settings) && ext.HooksAfterFirstRound(page)
    ensures !ext.panelPresent ==> ext.interceptions == 0 && ext.status == Ready && ext.wrappers == 0
  {
    ext := new SheetPrompt(stored, message);
    var first := ext.Init(present1, snapshots1, page);
    var second := ext.Init(present2, snapshots2, page);
    LoadIdempotent(DefaultSettings, stored);
  }
}
