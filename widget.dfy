/**
 * The `Heapchat` widget object: its outbound message queue, the
 * `isProcessingQueue` guard, the readiness of the iframe, and the public calls
 * that configure it and enqueue commands.
 */
module HeapchatWidget {
  import opened Options
  import opened Themes
  import opened Settings
  import opened Messages
  import opened MessageQueue

  class Heapchat {
    /** `isBrowser()`: whether a DOM is present; it does not change while the page lives. */
    const isBrowser: bool
    /** `iframe?.contentWindow` is present: `init` created the iframe and `destroy` has not removed it. */
    var hasWindow: bool
    /** Set by the iframe's `load` handler, never cleared. */
    var isInitialized: bool
    var queue: seq<QueuedMessage>
    var isProcessingQueue: bool
    /** How many `load` handlers `configure` has registered on the iframe. */
    var loadListeners: nat
    var apiKey: string
    var position: Position
    var supportImage: Option<string>
    var isToggleButtonVisible: bool
    var currentTheme: Theme
    var themeMode: ThemeMode
    /** The frames handed to `postMessage`, in order. */
    ghost var sent: seq<Payload>
    /** The messages given up after their last retry, in order (the "failed after max retries" report). */
    ghost var dropped: seq<QueuedMessage>

    /** What the queue and the failure report hold at every point. */
    ghost predicate QueueOk()
      reads this
    {
      && AllAdmissible(queue)
      && (forall i :: 0 <= i < |dropped| ==> dropped[i].retries == dropped[i].maxRetries)
    }

    /**
     * The invariant between calls. A drain in progress is always suspended
     * at its backoff with something still queued, and an idle widget has an
     * empty queue.
     */
    ghost predicate Valid()
      reads this
    {
      && QueueOk()
      && (isProcessingQueue <==> queue != [])
      && (hasWindow ==> isBrowser)
      && HasColorFields(currentTheme)
    }

    /** The readiness test of `processQueue`: the iframe has a window and has loaded. */
    predicate Ready()
      reads this
    {
      hasWindow && isInitialized
    }

    /** The drain loop ran from `q0` to its first pause or to the end of the queue. */
    twostate predicate Drained(q0: seq<QueuedMessage>)
      reads this
    {
      var r := RunUntilPause(q0, Ready());
      && queue == r.queue
      && sent == old(sent) + r.sent
      && dropped == old(dropped) + r.dropped
      && isProcessingQueue == r.paused
    }

    /**
     * `enqueueMessage(m)`: during a suspended drain `m` is only appended;
     * otherwise a drain starts on the queue with `m` at its tail.
     */
    twostate predicate Enqueued(m: QueuedMessage)
      reads this
    {
      if old(isProcessingQueue) then
        && queue == old(queue) + [m]
        && isProcessingQueue
        && sent == old(sent)
        && dropped == old(dropped)
      else
        Drained(old(queue) + [m])
    }

    /**
     * What `Enqueued` implies for a new message: a ready, idle widget posts
     * it at once; a widget that is not ready posts and drops nothing, and an
     * idle one starts a drain that fails on the message and pauses with it
     * at the tail, one retry further on.
     */
    twostate predicate PostedIfReady(m: QueuedMessage)
      reads this
    {
      && (Ready() && !old(isProcessingQueue) ==>
            queue == [] && !isProcessingQueue && sent == old(sent) + [Frame(m)] && dropped == old(dropped))
      && (!Ready() ==> sent == old(sent) && dropped == old(dropped))
      && (!Ready() && !old(isProcessingQueue) ==> queue == [Bump(m)] && isProcessingQueue)
    }

    /** The widget as `init` leaves it in a browser, or bare outside one. */
    constructor (isBrowser: bool)
      ensures Valid()
      ensures this.isBrowser == isBrowser && hasWindow == isBrowser
      ensures !isInitialized && queue == [] && !isProcessingQueue && loadListeners == 0
      ensures apiKey == "" && position == BottomRight && supportImage == None && isToggleButtonVisible
      ensures currentTheme == DefaultTheme && themeMode == System
      ensures sent == [] && dropped == []
    {
      this.isBrowser := isBrowser;
      hasWindow := isBrowser;
      isInitialized := false;
      queue := [];
      isProcessingQueue := false;
      loadListeners := 0;
      apiKey := "";
      position := BottomRight;
      supportImage := None;
      isToggleButtonVisible := true;
      currentTheme := DefaultTheme;
      themeMode := System;
      sent := [];
      dropped := [];
    }

    /** One iteration of the `while` loop of `processQueue`. */
    method ProcessStep() returns (outcome: Outcome)
      requires queue != [] && QueueOk()
      modifies this`queue, this`sent, this`dropped
      ensures QueueOk()
      ensures queue == Attempt(old(queue), Ready()).queue
      ensures outcome == Attempt(old(queue), Ready()).outcome
      ensures sent == old(sent) + (if outcome == Sent then [Frame(old(queue)[0])] else [])
      ensures dropped == old(dropped) + (if outcome == Dropped then [old(queue)[0]] else [])
    {
      AttemptKeepsAdmissible(queue, Ready());
      var message := queue[0];
      if !hasWindow || !isInitialized {
        if message.retries < message.maxRetries {
          message := Bump(message);
          queue := queue[1..] + [message];
          outcome := Retried;
        } else {
          dropped := dropped + [message];
          queue := queue[1..];
          outcome := Dropped;
        }
      } else {
        sent := sent + [Frame(message)];
        queue := queue[1..];
        outcome := Sent;
      }
    }

    /**
     * The loop of `processQueue`, from its start or from the point after the
     * backoff `await`: it returns at that `await`, with the guard still set,
     * or once the queue is empty, with the guard cleared.
     */
    method Drain()
      requires isProcessingQueue && QueueOk()
      modifies this`queue, this`isProcessingQueue, this`sent, this`dropped
      ensures QueueOk()
      ensures Drained(old(queue))
    {
      ghost var q0, s0, d0, rd := queue, sent, dropped, Ready();
      ghost var posted: seq<Payload> := [];
      ghost var gaveUp: seq<QueuedMessage> := [];
      while queue != []
        invariant QueueOk() && isProcessingQueue && Ready() == rd
        invariant sent == s0 + posted && dropped == d0 + gaveUp
        invariant RunUntilPause(q0, rd) == After(posted, gaveUp, RunUntilPause(queue, rd))
        decreases |queue|
      {
        ghost var before := queue;
        var outcome := ProcessStep();
        if outcome == Retried {
          RunPauses(posted, gaveUp, before, rd);
          return;
        }
        RunUnfold(before, rd);
        AfterNote(posted, gaveUp, outcome, before[0], RunUntilPause(queue, rd));
        posted := posted + (if outcome == Sent then [Frame(before[0])] else []);
        gaveUp := gaveUp + (if outcome == Sent then [] else [before[0]]);
      }
      assert posted + [] == posted && gaveUp + [] == gaveUp;
      isProcessingQueue := false;
    }

    /** `processQueue()`: a second drain is never started while one is suspended. */
    method ProcessQueue()
      requires QueueOk() && (isProcessingQueue ==> queue != [])
      modifies this`queue, this`isProcessingQueue, this`sent, this`dropped
      ensures QueueOk() && (isProcessingQueue <==> queue != [])
      ensures old(isProcessingQueue) ==>
        queue == old(queue) && isProcessingQueue && sent == old(sent) && dropped == old(dropped)
      ensures !old(isProcessingQueue) ==> Drained(old(queue))
    {
      if isProcessingQueue || |queue| == 0 {
        return;
      }
      isProcessingQueue := true;
      Drain();
    }

    /** The continuation of a suspended drain, run when the backoff timer fires. */
    method ResumeAfterBackoff()
      requires Valid() && isProcessingQueue
      modifies this`queue, this`isProcessingQueue, this`sent, this`dropped
      ensures Valid()
      ensures Drained(old(queue))
      ensures Ready() ==> queue == [] && sent == old(sent) + Frames(old(queue)) && dropped == old(dropped)
      ensures !Ready() ==> sent == old(sent)
    {
      Drain();
      RunReady(old(queue));
      RunNotReady(old(queue));
    }

    /** `enqueueMessage`: append at the tail, then `processQueue()`. */
    method Enqueue(m: QueuedMessage)
      requires Valid() && Admissible(m) && IsNew(m)
      modifies this`queue, this`isProcessingQueue, this`sent, this`dropped
      ensures Valid()
      ensures Enqueued(m)
      ensures PostedIfReady(m)
    {
      queue := queue + [m];
      ProcessQueue();
      if !old(isProcessingQueue) {
        assert old(queue) + [m] == [m];
        FirstDrainOfNew(m, Ready());
      }
    }

    /**
     * One `load` handler registered by `configure`: the iframe becomes
     * initialised and INIT, built from the configuration current now, is
     * enqueued behind whatever is waiting.
     */
    method LoadListener()
      requires Valid() && loadListeners > 0 && hasWindow
      modifies this`isInitialized, this`queue, this`isProcessingQueue, this`sent, this`dropped
      ensures Valid() && isInitialized
      ensures Enqueued(InitMessage(apiKey, supportImage, position))
      ensures PostedIfReady(InitMessage(apiKey, supportImage, position))
    {
      isInitialized := true;
      Enqueue(InitMessage(apiKey, supportImage, position));
    }

    /** `configure`: store the defaulted settings and, in a browser with an iframe, register a `load` handler. */
    method Configure(config: Config)
      requires Valid()
      modifies this`apiKey, this`position, this`supportImage, this`isToggleButtonVisible, this`loadListeners
      ensures Valid()
      ensures apiKey == config.apiKey && supportImage == config.supportImage
      ensures position == PositionOrDefault(config.position)
      ensures isToggleButtonVisible == ToggleButtonVisible(config.showToggleButton)
      ensures loadListeners == old(loadListeners) + (if isBrowser && hasWindow then 1 else 0)
    {
      apiKey := config.apiKey;
      position := PositionOrDefault(config.position);
      supportImage := config.supportImage;
      isToggleButtonVisible := ToggleButtonVisible(config.showToggleButton);
      if !isBrowser {
        return;
      }
      if hasWindow {
        loadListeners := loadListeners + 1;
      }
    }

    method Login(userId: string)
      requires Valid()
      modifies this`queue, this`isProcessingQueue, this`sent, this`dropped
      ensures Valid()
      ensures Enqueued(LoginMessage(userId))
      ensures PostedIfReady(LoginMessage(userId))
    {
      Enqueue(LoginMessage(userId));
    }

    method Logout()
      requires Valid()
      modifies this`queue, this`isProcessingQueue, this`sent, this`dropped
      ensures Valid()
      ensures Enqueued(LogoutMessage())
      ensures PostedIfReady(LogoutMessage())
    {
      Enqueue(LogoutMessage());
    }

    method SetCustomerData(data: CustomerData)
      requires Valid()
      modifies this`queue, this`isProcessingQueue, this`sent, this`dropped
      ensures Valid()
      ensures Enqueued(CustomerDataMessage(data))
      ensures PostedIfReady(CustomerDataMessage(data))
    {
      Enqueue(CustomerDataMessage(data));
    }

    /** `setTheme`: the stored theme is the merge, the message carries only the update. */
    method SetTheme(theme: Theme)
      requires Valid()
      modifies this`currentTheme, this`queue, this`isProcessingQueue, this`sent, this`dropped
      ensures Valid()
      ensures currentTheme == MergeTheme(old(currentTheme), theme)
      ensures Enqueued(ThemeMessage(theme))
      ensures PostedIfReady(ThemeMessage(theme))
    {
      MergeKeepsColorKeys(currentTheme, theme);
      currentTheme := MergeTheme(currentTheme, theme);
      Enqueue(ThemeMessage(theme));
    }

    method SetThemeMode(mode: ThemeMode)
      requires Valid()
      modifies this`themeMode, this`queue, this`isProcessingQueue, this`sent, this`dropped
      ensures Valid()
      ensures themeMode == mode
      ensures Enqueued(ThemeModeMessage(mode))
      ensures PostedIfReady(ThemeModeMessage(mode))
    {
      themeMode := mode;
      Enqueue(ThemeModeMessage(mode));
    }

    /** `destroy`: the iframe goes away; the queue and the guard are left as they are. */
    method Destroy()
      requires Valid()
      modifies this`hasWindow
      ensures Valid()
      ensures !hasWindow
    {
      if !isBrowser {
        return;
      }
      hasWindow := false;
    }

    /**
     * `getCurrentThemeColors`, with the media query's answer passed in; the
     * invariant guarantees every field read with `!` is set.
     */
    function CurrentThemeColors(prefersDark: bool): (c: Colors)
      requires Valid()
      reads this
      ensures themeMode == Dark || (themeMode == System && isBrowser && prefersDark) ==> c == DarkColors(currentTheme)
      ensures themeMode == Light || (themeMode == System && !(isBrowser && prefersDark)) ==> c == LightColors(currentTheme)
    {
      SelectColors(currentTheme, themeMode, SystemScheme(isBrowser, prefersDark))
    }
  }
}
