/** The session page: a login remembered in the device store for 24 hours.
    The clock is an input; timestamps are whole milliseconds. */
module IndexPage {
  import opened Types
  import opened Decimal

  const DayMillis: int := 86400000

  /** The keys a login writes and a logout or an expired session removes. */
  const SessionKeys: set<string> := {"isLoggedIn", "loginTime", "userPhone"}

  /** The effect's first test: the flag is "true" and a non-empty time is
      stored. */
  predicate Remembered(text: map<string, string>) {
    && "isLoggedIn" in text && text["isLoggedIn"] == "true"
    && "loginTime" in text && text["loginTime"] != ""
  }

  /** The session is restored when the remembered time parses and lies less
      than 24 hours before `now`; a time that does not parse is NaN, and NaN
      is never below 24. */
  predicate Fresh(text: map<string, string>, now: int) {
    Remembered(text) &&
    match ParseInt(text["loginTime"])
    case Some(t) => now - t < DayMillis
    case None => false
  }

  /** The store after the effect: an expired or unreadable session is wiped,
      anything else is left alone. */
  function Checked(text: map<string, string>, now: int): (r: map<string, string>)
    ensures Remembered(text) && !Fresh(text, now) ==> r == text - SessionKeys
    ensures !Remembered(text) || Fresh(text, now) ==> r == text
    ensures r.Keys <= text.Keys
  {
    if Remembered(text) && !Fresh(text, now) then text - SessionKeys else text
  }

  /** The store after handleLogin at time `now`. */
  function LoggedIn(text: map<string, string>, phone: string, now: nat): (r: map<string, string>)
    ensures r.Keys == text.Keys + SessionKeys
    ensures r["isLoggedIn"] == "true" && r["loginTime"] == NatToString(now) && r["userPhone"] == phone
    ensures forall k :: k in text && k !in SessionKeys ==> r[k] == text[k]
  {
    text["isLoggedIn" := "true"]["loginTime" := NatToString(now)]["userPhone" := phone]
  }

  /** A login is still good within 24 hours of being made. */
  lemma LoginIsRemembered(text: map<string, string>, phone: string, loginAt: nat, now: int)
    ensures Remembered(LoggedIn(text, phone, loginAt))
    ensures Fresh(LoggedIn(text, phone, loginAt), now) <==> now - loginAt < DayMillis
  {
    ParseIntOfNatToString(loginAt);
  }

  /** After a logout nothing is remembered. */
  lemma LogoutForgets(text: map<string, string>)
    ensures !Remembered(text - SessionKeys)
  {
  }

  class Session {
    var store: Store
    var isLoggedIn: bool
    var isLoading: bool

    constructor (store: Store)
      ensures this.store == store && !isLoggedIn && isLoading
    {
      this.store := store;
      isLoggedIn := false;
      isLoading := true;
    }

    /** The mount effect: log in from a fresh remembered session, wipe a
        stale one, and stop loading in every case. */
    method Restore(now: int)
      modifies this
      ensures isLoggedIn == (old(isLoggedIn) || Fresh(old(store).text, now))
      ensures store == old(store).(text := Checked(old(store).text, now))
      ensures !isLoading
    {
      var text := store.text;
      if Remembered(text) {
        var loginTimeStamp := ParseInt(text["loginTime"]);
        if loginTimeStamp.Some? && now - loginTimeStamp.value < DayMillis {
          isLoggedIn := true;
        } else {
          store := store.(text := text - SessionKeys);
        }
      }
      isLoading := false;
    }

    method HandleLogin(phoneNumber: string, now: nat)
      modifies this`store, this`isLoggedIn
      ensures store == old(store).(text := LoggedIn(old(store).text, phoneNumber, now))
      ensures isLoggedIn
    {
      store := store.(text := store.text["isLoggedIn" := "true"]);
      store := store.(text := store.text["loginTime" := NatToString(now)]);
      store := store.(text := store.text["userPhone" := phoneNumber]);
      isLoggedIn := true;
    }

    method HandleLogout()
      modifies this`store, this`isLoggedIn
      ensures store == old(store).(text := old(store).text - SessionKeys)
      ensures !isLoggedIn
    {
      store := store.(text := store.text - SessionKeys);
      isLoggedIn := false;
    }
  }
}
