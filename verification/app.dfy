/** The application shell's onboarding: which of the login screen, the
    address setup and the main app is shown, and the store writes made on
    the way. */
module App {
  import opened Types

  datatype Gate = LoginGate | AddressSetupGate | MainGate

  function GateFor(isLoggedIn: bool, hasAddress: bool): (g: Gate)
    ensures g == LoginGate <==> !isLoggedIn
    ensures g == AddressSetupGate <==> isLoggedIn && !hasAddress
    ensures g == MainGate <==> isLoggedIn && hasAddress
  {
    if !isLoggedIn then LoginGate
    else if !hasAddress then AddressSetupGate
    else MainGate
  }

  class Onboarding {
    var isLoggedIn: bool
    var hasAddress: bool
    var userAddress: Option<AddressFields>
    var store: Store

    function Screen(): Gate
      reads this
    {
      GateFor(isLoggedIn, hasAddress)
    }

    constructor (store: Store)
      ensures !isLoggedIn && !hasAddress && userAddress == None && this.store == store
      ensures Screen() == LoginGate
    {
      isLoggedIn := false;
      hasAddress := false;
      userAddress := None;
      this.store := store;
    }

    /** handleLogin: remember the phone; a stored address skips the setup. */
    method HandleLogin(phoneNumber: string)
      modifies this
      ensures store == old(store).(text := old(store).text["userPhone" := phoneNumber])
      ensures isLoggedIn
      ensures old(store).userAddress.Some? ==>
        hasAddress && userAddress == Some(old(store).userAddress.value.Fields())
      ensures old(store).userAddress.None? ==>
        hasAddress == old(hasAddress) && userAddress == old(userAddress)
      ensures Screen() == if old(store).userAddress.Some? || old(hasAddress) then MainGate else AddressSetupGate
    {
      store := store.(text := store.text["userPhone" := phoneNumber]);
      isLoggedIn := true;
      var savedAddress := store.userAddress;
      if savedAddress.Some? {
        userAddress := Some(savedAddress.value.Fields());
        hasAddress := true;
      }
    }

    method HandleAddressSubmit(address: AddressFields)
      modifies this
      ensures store == old(store).(userAddress := Some(Plain(address)))
      ensures userAddress == Some(address) && hasAddress && isLoggedIn == old(isLoggedIn)
    {
      store := store.(userAddress := Some(Plain(address)));
      userAddress := Some(address);
      hasAddress := true;
    }

    method HandleSkipAddress()
      modifies this`hasAddress
      ensures hasAddress
    {
      hasAddress := true;
    }

    method HandleLogout()
      modifies this
      ensures !isLoggedIn && !hasAddress && userAddress == None
      ensures store == old(store).(text := old(store).text - {"userPhone"}, userAddress := None)
      ensures Screen() == LoginGate
    {
      isLoggedIn := false;
      hasAddress := false;
      userAddress := None;
      store := store.(text := store.text - {"userPhone"}, userAddress := None);
    }
  }

  /** Logging in, then submitting or skipping the address, always reaches
      the main app; logging out always returns to the login screen. */
  method Onboard(store: Store, phoneNumber: string, address: Option<AddressFields>) returns (gates: seq<Gate>)
    ensures |gates| == 4
    ensures gates[0] == LoginGate && gates[2] == MainGate && gates[3] == LoginGate
    ensures gates[1] == if store.userAddress.Some? then MainGate else AddressSetupGate
  {
    var app := new Onboarding(store);
    var g0 := app.Screen();
    app.HandleLogin(phoneNumber);
    var g1 := app.Screen();
    match address {
      case Some(a) => app.HandleAddressSubmit(a);
      case None => app.HandleSkipAddress();
    }
    var g2 := app.Screen();
    app.HandleLogout();
    var g3 := app.Screen();
    gates := [g0, g1, g2, g3];
  }
}
