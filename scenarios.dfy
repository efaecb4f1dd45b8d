/** Two request sequences against one store, as a client of the handlers'
    contracts sees them. */
module Scenarios {
  import opened Provider
  import opened Plays

  /** An admin creates a play with no `units`; it is pending, has one unit,
      a `play_` id, an " ET" posting time, and heads the admin's next listing. */
  method AdminCreatesThenLists() {
    var store := new PlayStore();
    var token := TokenVerified(Some("user_admin"));
    var admin := AccessLevel("admin");
    var body := PlayInput("Lakers", "Spread", "-110", "LAL vs BOS", "7:00 PM", "NBA", None);
    var created := store.Create(token, admin, body, Clock(1700000000000, "Nov 14, 5:13 PM", 1700000000000));
    assert created.PlaySaved?;
    var play := created.play;
    assert play.result == PENDING && play.units == 1.0;
    assert play.id[..|ID_PREFIX|] == ID_PREFIX;
    assert play.postedAt[|play.postedAt| - |ET_SUFFIX|..] == ET_SUFFIX;
    var listed := store.List(token, admin, []);
    assert listed == PlayList([play], true);
  }

  /** A caller without premium or admin access sees only the pending play
      of a store holding one pending and one won play, redacted. */
  method BasicCallerSeesOnlyPending() {
    var store := new PlayStore();
    var adminToken := TokenVerified(Some("user_admin"));
    var admin := AccessLevel("admin");
    var body := PlayInput("Lakers", "Spread", "-110", "LAL vs BOS", "7:00 PM", "NBA", Some(2.0));
    var first := store.Create(adminToken, admin, body, Clock(1, "Nov 14, 5:13 PM", 1));
    var second := store.Create(adminToken, admin, body, Clock(2, "Nov 14, 5:14 PM", 2));
    assert store.plays == [second.play, first.play];
    assert first.play.id == "play_1" && second.play.id == "play_2";
    assert FindIndex(store.plays, first.play.id) == 1;
    var won := store.Update(adminToken, admin, first.play.id, "win");
    assert won == PlaySaved(first.play.(result := "win"));
    var listed := store.List(TokenVerified(Some("user_basic")), AccessLevel("customer"), [PassThrew, PassChecked(false)]);
    assert listed.PlayList? && !listed.isAdmin;
    RedactedKeepsPendingInOrder(store.plays);
    assert listed.plays == [Masked(second.play)];
  }
}
