/**
 * `AppContent` (src/App.jsx) as an object: the three router fields and the
 * four handlers, each proved to perform the matching transition of module
 * Router and to leave the fields it does not name unchanged.
 */
module App {
  import opened Types
  import Router

  class AppContent {
    var currentView: string
    var selectedRepertorio: Option<Repertoire>
    var liveMusicas: seq<Musica>

    function State(): Router.AppState
      reads this
    {
      Router.AppState(currentView, selectedRepertorio, liveMusicas)
    }

    constructor ()
      ensures currentView == "dashboard" && selectedRepertorio == None && liveMusicas == []
      ensures State() == Router.Initial
    {
      currentView := Router.DashboardView;
      selectedRepertorio := None;
      liveMusicas := [];
    }

    method HandleSelectRepertorio(repertorio: Repertoire)
      modifies this
      ensures selectedRepertorio == Some(repertorio) && currentView == "repertorio"
      ensures liveMusicas == old(liveMusicas)
      ensures State() == Router.SelectRepertorio(old(State()), repertorio)
    {
      selectedRepertorio := Some(repertorio);
      currentView := Router.RepertorioView;
    }

    method HandleBackToDashboard()
      modifies this
      ensures selectedRepertorio == None && currentView == "dashboard"
      ensures liveMusicas == old(liveMusicas)
      ensures State() == Router.BackToDashboard(old(State()))
    {
      selectedRepertorio := None;
      currentView := Router.DashboardView;
    }

    method HandleStartLiveMode(repertorio: Repertoire, musicas: seq<Musica>)
      modifies this
      ensures selectedRepertorio == Some(repertorio) && liveMusicas == musicas && currentView == "live"
      ensures State() == Router.StartLiveMode(old(State()), repertorio, musicas)
    {
      selectedRepertorio := Some(repertorio);
      liveMusicas := musicas;
      currentView := Router.LiveView;
    }

    method HandleBackFromLive()
      modifies this
      ensures currentView == "repertorio" && liveMusicas == []
      ensures selectedRepertorio == old(selectedRepertorio)
      ensures State() == Router.BackFromLive(old(State()))
    {
      currentView := Router.RepertorioView;
      liveMusicas := [];
    }
  }
}
