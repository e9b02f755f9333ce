/**
 * The live-performance view (src/components/LiveMode.jsx) as an object: its
 * four state fields and one method per handler. Each method is proved to
 * perform the matching transition of module LiveSession and to keep the
 * session invariant.
 */
module LiveMode {
  import opened Types
  import LiveSession

  class Controller {
    /** The song list passed in by the router; it does not change while the view is mounted. */
    const musicas: seq<Musica>
    var currentIndex: int
    var isAutoScrolling: bool
    var scrollSpeed: int
    var scrollPosition: int

    function State(): LiveSession.Session
      reads this
    {
      LiveSession.Session(currentIndex, isAutoScrolling, scrollSpeed, scrollPosition)
    }

    ghost predicate Valid()
      reads this
    {
      LiveSession.Valid(State(), |musicas|)
    }

    /** Mounting the view: first song, auto-scroll off, speed 50, at the top. */
    constructor (musicas: seq<Musica>)
      ensures this.musicas == musicas
      ensures currentIndex == 0 && !isAutoScrolling && scrollSpeed == 50 && scrollPosition == 0
      ensures State() == LiveSession.Initial && Valid()
    {
      this.musicas := musicas;
      currentIndex := 0;
      isAutoScrolling := false;
      scrollSpeed := LiveSession.InitialSpeed;
      scrollPosition := 0;
    }

    /**
     * `musicas[currentIndex]`; when it is missing the view shows the
     * "no song found" screen, which under the invariant happens exactly when
     * the list is empty.
     */
    function CurrentMusica(): (m: Option<Musica>)
      reads this
      ensures m.Some? <==> 0 <= currentIndex < |musicas|
      ensures m.Some? ==> m.value == musicas[currentIndex]
      ensures LiveSession.Valid(State(), |musicas|) ==> (m.None? <==> |musicas| == 0)
    {
      if 0 <= currentIndex < |musicas| then Some(musicas[currentIndex]) else None
    }

    /** The effect run after every change of `currentIndex`. */
    method ResetOnSongChange()
      modifies this
      ensures scrollPosition == 0 && !isAutoScrolling
      ensures currentIndex == old(currentIndex) && scrollSpeed == old(scrollSpeed)
    {
      scrollPosition := 0;
      isAutoScrolling := false;
    }

    method GoToPrevious()
      requires Valid()
      modifies this
      ensures Valid() && State() == LiveSession.Previous(old(State()))
    {
      if currentIndex > 0 {
        currentIndex := currentIndex - 1;
        ResetOnSongChange();
      }
    }

    method GoToNext()
      requires Valid()
      modifies this
      ensures Valid() && State() == LiveSession.Next(old(State()), |musicas|)
    {
      if currentIndex < |musicas| - 1 {
        currentIndex := currentIndex + 1;
        ResetOnSongChange();
      }
    }

    method ToggleAutoScroll()
      requires Valid()
      modifies this
      ensures Valid() && State() == LiveSession.Toggle(old(State()))
    {
      isAutoScrolling := !isAutoScrolling;
    }

    method ResetScroll()
      requires Valid()
      modifies this
      ensures Valid() && State() == LiveSession.Reset(old(State()))
    {
      scrollPosition := 0;
      isAutoScrolling := false;
    }

    /** The slider's `onValueChange`. */
    method SetScrollSpeed(percent: int)
      requires Valid() && LiveSession.ValidSpeed(percent)
      modifies this
      ensures Valid() && State() == LiveSession.SetSpeed(old(State()), percent)
    {
      scrollSpeed := percent;
    }

    /**
     * One firing of the auto-scroll interval; `maxScroll` is the content
     * element's scrollHeight - clientHeight, measured by the caller.
     */
    method Tick(maxScroll: int)
      requires Valid() && 0 <= maxScroll
      modifies this
      ensures Valid() && State() == LiveSession.Tick(old(State()), |musicas|, maxScroll)
      ensures old(isAutoScrolling) && CurrentMusica().Some? ==> scrollPosition <= maxScroll
    {
      if isAutoScrolling && CurrentMusica().Some? {
        var scrollStep := LiveSession.ScrollStep(scrollSpeed);
        var newPosition := scrollPosition + scrollStep;
        if newPosition >= maxScroll {
          isAutoScrolling := false;
          scrollPosition := maxScroll;
        } else {
          scrollPosition := newPosition;
        }
      }
    }

    /** The keyboard listener; the result says whether the browser's default action was suppressed. */
    method HandleKeyPress(key: string) returns (defaultPrevented: bool)
      requires Valid()
      modifies this
      ensures defaultPrevented <==> key == " "
      ensures Valid() && State() == LiveSession.HandleKey(old(State()), |musicas|, key)
    {
      defaultPrevented := false;
      match key
      case "ArrowLeft" => GoToPrevious();
      case "ArrowRight" => GoToNext();
      case " " =>
        defaultPrevented := true;
        ToggleAutoScroll();
      case "r" => ResetScroll();
      case _ =>
    }
  }
}
