// The state the simple front end's sessions and controller share
// (src/simple/shared.hpp): the ids of disconnected sessions waiting to be
// removed, and the known symbols.

module SimpleShared {
  class Shared {
    var sessionsToRemove: set<nat>
    var symbols: set<string>

    constructor()
      ensures sessionsToRemove == {} && symbols == {}
    {
      sessionsToRemove := {};
      symbols := {};
    }
  }
}
