/**
 * The home screen (HomeViewModel): an IP field, a list of discovered TVs,
 * a selection, a loading flag and the pairing dialog. The use cases it calls
 * (connect, disconnect, discover, send pairing code) are recorded as a log of
 * calls; what they return is an input of the method that awaits it.
 */
module Home {
  import opened Wrappers
  import opened Text
  import opened Devices

  /** A call from the screen into the session or discovery layer. */
  datatype UseCaseCall =
    | Connect(device: TvDevice)
    | Disconnect
    | Discover
    | SendPairing(code: string)

  /**
   * How an awaited call ended: it returned, or it failed with the failure's
   * possibly absent message. For `connectToTV` a failure is the use case's
   * `Result.failure`, handled in `onFailure`; for `sendPairingCode` it is an
   * exception caught around the call.
   */
  datatype Completion = Returned | Failed(message: Option<string>)

  /** The target the connect use case builds from a typed-in address. */
  function ConnectTarget(ip: string): (d: TvDevice)
    ensures d.ipAddress == ip && d.port == 3001 && !d.isConnected
    ensures d.id == "lg_tv_1" && d.name == "LG TV"
  {
    TvDevice("lg_tv_1", "LG TV", ip, 3001)
  }

  /** Whether the pairing dialog is open after observing `states`, starting from `open`. */
  function DialogAfter(open: bool, states: seq<ConnectionState>): bool
    decreases |states|
  {
    if states == [] then open
    else DialogAfter(open, states[..|states| - 1]) || states[|states| - 1] == Pairing
  }

  /** The dialog is open after a run of states exactly when it was open before or the run passed through PAIRING. */
  lemma {:induction false} DialogAfterIff(open: bool, states: seq<ConnectionState>)
    ensures DialogAfter(open, states) <==> open || Pairing in states
    decreases |states|
  {
    if states != [] {
      var init := states[..|states| - 1];
      DialogAfterIff(open, init);
      assert states == init + [states[|states| - 1]];
    }
  }

  class HomeViewModel {
    var tvIpAddress: string
    var errorMessage: Option<string>
    var isLoading: bool
    var discoveredTvs: seq<DiscoveredTv>
    var isDiscovering: bool
    var selectedTv: Option<DiscoveredTv>
    var pairingCode: string
    var showPairingDialog: bool
    var calls: seq<UseCaseCall>

    /** Between operations nothing is loading and no discovery is running. */
    ghost predicate Valid()
      reads this
    {
      !isLoading && !isDiscovering
    }

    /** The initial screen: every field at its default, no call made yet. */
    constructor ()
      ensures Valid()
      ensures tvIpAddress == "" && errorMessage == None && discoveredTvs == []
      ensures selectedTv == None && pairingCode == "" && !showPairingDialog && calls == []
    {
      tvIpAddress := "";
      errorMessage := None;
      isLoading := false;
      discoveredTvs := [];
      isDiscovering := false;
      selectedTv := None;
      pairingCode := "";
      showPairingDialog := false;
      calls := [];
    }

    /** `updateIpAddress`: the typed address replaces the field and any error is cleared. */
    method UpdateIpAddress(ipAddress: string)
      modifies this`tvIpAddress, this`errorMessage
      ensures tvIpAddress == ipAddress && errorMessage == None
    {
      tvIpAddress := ipAddress;
      errorMessage := None;
    }

    /**
     * `connectToTV`: refused with an error when the address is blank; otherwise
     * the connect use case is called for the address and awaited (`outcome`),
     * the loading flag is raised around the call and only a failure leaves an error.
     */
    method ConnectToTv(outcome: Completion)
      requires Valid()
      modifies this`errorMessage, this`isLoading, this`calls
      ensures Valid()
      ensures IsBlank(tvIpAddress) ==>
        errorMessage == Some("Por favor ingresa la IP del TV") && calls == old(calls)
      ensures !IsBlank(tvIpAddress) ==>
        calls == old(calls) + [Connect(ConnectTarget(tvIpAddress))] &&
        errorMessage == (if outcome.Failed? then Some("Error al conectar: " + Show(outcome.message)) else None)
    {
      if IsBlank(tvIpAddress) {
        errorMessage := Some("Por favor ingresa la IP del TV");
        return;
      }
      var ipAddress := tvIpAddress;
      isLoading := true;
      errorMessage := None;
      calls := calls + [Connect(ConnectTarget(ipAddress))];
      if outcome.Failed? {
        errorMessage := Some("Error al conectar: " + Show(outcome.message));
      }
      isLoading := false;
    }

    /** `disconnectFromTV`: the disconnect use case is called. */
    method DisconnectFromTv()
      modifies this`calls
      ensures calls == old(calls) + [Disconnect]
    {
      calls := calls + [Disconnect];
    }

    /** `clearError`. */
    method ClearError()
      modifies this`errorMessage
      ensures errorMessage == None
    {
      errorMessage := None;
    }

    /**
     * `discoverTVs`: the discovery flow is collected, each emitted list
     * replacing the shown one; `failure` says whether the flow then threw.
     */
    method DiscoverTvs(snapshots: seq<seq<DiscoveredTv>>, failure: Option<Option<string>>)
      requires Valid()
      modifies this`isDiscovering, this`errorMessage, this`discoveredTvs, this`calls
      ensures Valid()
      ensures calls == old(calls) + [Discover]
      ensures discoveredTvs == if snapshots == [] then old(discoveredTvs) else snapshots[|snapshots| - 1]
      ensures errorMessage == if failure.Some? then Some("Error al buscar TVs: " + Show(failure.value)) else None
    {
      isDiscovering := true;
      errorMessage := None;
      calls := calls + [Discover];
      var i := 0;
      while i < |snapshots|
        invariant 0 <= i <= |snapshots|
        invariant isDiscovering && errorMessage == None && calls == old(calls) + [Discover]
        invariant discoveredTvs == if i == 0 then old(discoveredTvs) else snapshots[i - 1]
      {
        discoveredTvs := snapshots[i];
        i := i + 1;
      }
      if failure.Some? {
        errorMessage := Some("Error al buscar TVs: " + Show(failure.value));
      }
      isDiscovering := false;
    }

    /** `selectTV`: the device becomes the selection, its address fills the IP field and the error is cleared. */
    method SelectTv(tv: DiscoveredTv)
      modifies this`selectedTv, this`tvIpAddress, this`errorMessage
      ensures selectedTv == Some(tv) && tvIpAddress == tv.ipAddress && errorMessage == None
    {
      selectedTv := Some(tv);
      tvIpAddress := tv.ipAddress;
      errorMessage := None;
    }

    /**
     * `connectToSelectedTV`: with neither a selection nor an address it asks
     * for one; otherwise it is `connectToTV`, which still refuses a blank
     * address (a selected device whose address is blank).
     */
    method ConnectToSelectedTv(outcome: Completion)
      requires Valid()
      modifies this`errorMessage, this`isLoading, this`calls
      ensures Valid()
      ensures selectedTv.None? && IsBlank(tvIpAddress) ==>
        errorMessage == Some("Por favor selecciona un TV o ingresa una IP") && calls == old(calls)
      ensures selectedTv.Some? && IsBlank(tvIpAddress) ==>
        errorMessage == Some("Por favor ingresa la IP del TV") && calls == old(calls)
      ensures !IsBlank(tvIpAddress) ==>
        calls == old(calls) + [Connect(ConnectTarget(tvIpAddress))] &&
        errorMessage == (if outcome.Failed? then Some("Error al conectar: " + Show(outcome.message)) else None)
    {
      if selectedTv.Some? {
        ConnectToTv(outcome);
      } else if !IsBlank(tvIpAddress) {
        ConnectToTv(outcome);
      } else {
        errorMessage := Some("Por favor selecciona un TV o ingresa una IP");
      }
    }

    /** `updatePairingCode`. */
    method UpdatePairingCode(code: string)
      modifies this`pairingCode
      ensures pairingCode == code
    {
      pairingCode := code;
    }

    /**
     * `sendPairingCode`: the typed code goes to the session; once the call
     * returns, whatever its result, the dialog closes and the code is cleared.
     * Only a caught exception keeps them and shows an error.
     */
    method SendPairingCode(completion: Completion)
      modifies this`showPairingDialog, this`pairingCode, this`errorMessage, this`calls
      ensures calls == old(calls) + [SendPairing(old(pairingCode))]
      ensures completion.Returned? ==>
        !showPairingDialog && pairingCode == "" && errorMessage == old(errorMessage)
      ensures completion.Failed? ==>
        showPairingDialog == old(showPairingDialog) && pairingCode == old(pairingCode) &&
        errorMessage == Some("Error al enviar código de emparejamiento: " + Show(completion.message))
    {
      calls := calls + [SendPairing(pairingCode)];
      match completion {
        case Returned =>
          showPairingDialog := false;
          pairingCode := "";
        case Failed(message) =>
          errorMessage := Some("Error al enviar código de emparejamiento: " + Show(message));
      }
    }

    /** `showPairingDialog`. */
    method ShowPairingDialog()
      modifies this`showPairingDialog
      ensures showPairingDialog
    {
      showPairingDialog := true;
    }

    /** `hidePairingDialog`: the dialog closes and the typed code is discarded. */
    method HidePairingDialog()
      modifies this`showPairingDialog, this`pairingCode
      ensures !showPairingDialog && pairingCode == ""
    {
      showPairingDialog := false;
      pairingCode := "";
    }

    /** One state seen by the connection observer: PAIRING opens the dialog, nothing else touches it. */
    method OnConnectionState(state: ConnectionState)
      modifies this`showPairingDialog
      ensures showPairingDialog == (old(showPairingDialog) || state == Pairing)
    {
      if state == Pairing {
        showPairingDialog := true;
      }
    }

    /** The connection observer started at initialisation, over the states the session goes through. */
    method ObserveConnectionStates(states: seq<ConnectionState>)
      modifies this`showPairingDialog
      ensures showPairingDialog == DialogAfter(old(showPairingDialog), states)
      ensures showPairingDialog <==> old(showPairingDialog) || Pairing in states
    {
      var i := 0;
      while i < |states|
        invariant 0 <= i <= |states|
        invariant showPairingDialog == DialogAfter(old(showPairingDialog), states[..i])
      {
        assert states[..i + 1][..i] == states[..i];
        OnConnectionState(states[i]);
        i := i + 1;
      }
      assert states[..i] == states;
      DialogAfterIff(old(showPairingDialog), states);
    }
  }
}
