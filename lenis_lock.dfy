/** The scroll lock of src/utils/lenisLock.tsx: while locked, the smooth
    scroller is stopped and the page swallows wheel, touch-move and scrolling
    keys; unlocking jumps back to where the page was when it was locked. */
module LenisLock {
  /** The keys whose default scrolling is suppressed while locked. */
  const BlockedKeys: set<string> := {"ArrowUp", "ArrowDown", "PageUp", "PageDown", "Home", "End", " "}

  /** `keys.has(key)`. */
  predicate IsBlockedKey(key: string) {
    key in BlockedKeys
  }

  /** Letters, Tab and Enter keep their default action even while locked. */
  lemma OnlyScrollingKeysBlocked()
    ensures IsBlockedKey("ArrowUp") && IsBlockedKey("ArrowDown") && IsBlockedKey("PageUp")
    ensures IsBlockedKey("PageDown") && IsBlockedKey("Home") && IsBlockedKey("End") && IsBlockedKey(" ")
    ensures !IsBlockedKey("a") && !IsBlockedKey("Tab") && !IsBlockedKey("Enter") && !IsBlockedKey("")
    ensures |BlockedKeys| == 7
  {
  }

  /** The page's smooth scroller (`window.lenis`): its scroll position and
      whether it has been stopped. */
  class Lenis {
    var scroll: real
    var stopped: bool

    constructor (scroll: real)
      ensures this.scroll == scroll && !stopped
    {
      this.scroll := scroll;
      stopped := false;
    }

    method Stop()
      modifies this`stopped
      ensures stopped
    {
      stopped := true;
    }

    method Start()
      modifies this`stopped
      ensures !stopped
    {
      stopped := false;
    }

    /** `scrollTo(y, { immediate: true, force: true })`: jump there at once,
        even while stopped. */
    method ScrollTo(y: real)
      modifies this`scroll
      ensures scroll == y
    {
      scroll := y;
    }
  }

  /** The module's state and the document it guards: the saved position, the
      lock flag, the three listeners and the two root styles. */
  class ScrollLock {
    var savedY: real
    var locked: bool
    /** The wheel and touch-move `prevent` listeners. */
    var wheelGuard: bool
    var touchGuard: bool
    /** `keyHandler !== null`, i.e. the key-down listener is installed. */
    var keyHandler: bool
    /** `document.documentElement.style.overscrollBehavior` / `.touchAction`. */
    var overscrollBehavior: string
    var touchAction: string

    /** Every guard in place (`addGuards`). */
    predicate Guarded()
      reads this
    {
      wheelGuard && touchGuard && keyHandler && overscrollBehavior == "contain" && touchAction == "none"
    }

    /** Every guard removed (`removeGuards`). */
    predicate Unguarded()
      reads this
    {
      !wheelGuard && !touchGuard && !keyHandler && overscrollBehavior == "" && touchAction == ""
    }

    /** The guards are installed exactly while the lock is held. */
    ghost predicate Valid()
      reads this
    {
      if locked then Guarded() else Unguarded()
    }

    /** The module's initial state: unlocked, nothing saved, no listeners. */
    constructor ()
      ensures Valid() && !locked && savedY == 0.0 && Unguarded()
    {
      savedY := 0.0;
      locked := false;
      wheelGuard := false;
      touchGuard := false;
      keyHandler := false;
      overscrollBehavior := "";
      touchAction := "";
    }

    method AddGuards()
      modifies this`wheelGuard, this`touchGuard, this`keyHandler, this`overscrollBehavior, this`touchAction
      ensures Guarded()
    {
      wheelGuard := true;
      touchGuard := true;
      keyHandler := true;
      overscrollBehavior := "contain";
      touchAction := "none";
    }

    method RemoveGuards()
      modifies this`wheelGuard, this`touchGuard, this`keyHandler, this`overscrollBehavior, this`touchAction
      ensures Unguarded()
    {
      wheelGuard := false;
      touchGuard := false;
      keyHandler := false;
      overscrollBehavior := "";
      touchAction := "";
    }

    /** `lockScrollLenis()`: a no-op when already locked or when there is no
        scroller; otherwise save the position, stop the scroller, guard. */
    method Lock(lenis: Lenis?)
      requires Valid()
      modifies this, lenis
      ensures Valid()
      ensures old(locked) || lenis == null ==> unchanged(this) && (lenis != null ==> unchanged(lenis))
      ensures !old(locked) && lenis != null ==>
        && locked && Guarded() && savedY == old(lenis.scroll)
        && lenis.stopped && lenis.scroll == old(lenis.scroll)
    {
      if locked {
        return;
      }
      if lenis == null {
        return;
      }
      savedY := lenis.scroll;
      lenis.Stop();
      AddGuards();
      locked := true;
    }

    /** `unlockScrollLenis()`: a no-op when not locked or when there is no
        scroller; otherwise unguard, jump back to the saved position and
        restart the scroller. */
    method Unlock(lenis: Lenis?)
      requires Valid()
      modifies this, lenis
      ensures Valid()
      ensures !old(locked) || lenis == null ==> unchanged(this) && (lenis != null ==> unchanged(lenis))
      ensures old(locked) && lenis != null ==>
        && !locked && Unguarded() && savedY == old(savedY)
        && lenis.scroll == old(savedY) && !lenis.stopped
    {
      if !locked {
        return;
      }
      if lenis == null {
        return;
      }
      RemoveGuards();
      lenis.ScrollTo(savedY);
      lenis.Start();
      locked := false;
    }

    /** A key press reaching the key-down guard: its default is prevented
        exactly when the lock is held and the key scrolls. */
    method OnKeyDown(key: string) returns (prevented: bool)
      requires Valid()
      ensures prevented <==> locked && IsBlockedKey(key)
    {
      prevented := keyHandler && key in BlockedKeys;
    }

    /** A wheel event: prevented exactly while locked. */
    method OnWheel() returns (prevented: bool)
      requires Valid()
      ensures prevented <==> locked
    {
      prevented := wheelGuard;
    }

    /** A touch-move event: prevented exactly while locked. */
    method OnTouchMove() returns (prevented: bool)
      requires Valid()
      ensures prevented <==> locked
    {
      prevented := touchGuard;
    }
  }
}
