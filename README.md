# A verified model of an LG TV remote-control app

The app is an Android remote control for LG webOS televisions. This model covers five parts of it:

- **The control session** (`Session`, a class): one WebSocket to the TV and a connection state (DISCONNECTED, CONNECTING, PAIRING, CONNECTED, ERROR). The socket callbacks drive the state. The session also resolves the pending connect call once and hands frames to the socket. Every event sets one fixed state or leaves the state alone, so the class keeps its state equal to a fold (`Run`) over the history of events. Lemmas over that fold say which histories can reach PAIRING or CONNECTED.
- **SSDP discovery** (`Discovery`): reading the headers of one reply (`parseSSDP`), the fallback that fetches and reads the device description (`parseDeviceXML`, `extractXMLValue`), and the loop that collects replies. The loop starts the list with a simulated TV, admits each new address once and emits the list after every addition and once at the end.
- **Voice control** (`Voice`):
  - the ordered table that maps a recognised phrase to a TV command, where the first line with a keyword inside the phrase wins;
  - the screen state around it, as a class.
- **The home screen** (`Home`, a class): the IP field, the selection, the guarded connect actions, the discovery flags and the pairing dialog.
- **Device records** (`Devices`): `DiscoveredTV`, its defaults and its conversion to a connection target.

`Text` holds the Kotlin string operations these rely on: `indexOf`, `contains`, `startsWith`, `substringAfter`, `trim`, `isBlank`, `split("\r\n")`, `replace` and `lowercase`. `Wrappers` holds `Option`.

Inputs replace what the model cannot see:
- **The network** is a value: the descriptions that each LOCATION URL serves and the host of each URL.
- **A discovery run** is the sequence of receives. Each receive is a reply, or a timeout or error that the loop swallows.
- **Awaited calls** (the connect use case, a send, a pairing-code send): how they end is a parameter of the method that awaits them.
- **Incoming JSON** arrives already parsed.
- **Use-case and repository calls** made by the view models are recorded as a log of calls.

## Model

| member | source | states |
|---|---|---|
| Text.Lower | app/src/main/java/cl/jlopezr/control/voice/presentation/VoiceControlViewModel.kt:181 | lower-casing keeps the length and lower-cases each character (ASCII letters) |
| Text.IndexOf | app/src/main/java/cl/jlopezr/control/core/data/service/TVDiscoveryService.kt:223-227 | -1 exactly when the pattern occurs nowhere at or after `from`; otherwise an occurrence with none before it |
| Text.Contains | app/src/main/java/cl/jlopezr/control/core/data/service/TVDiscoveryService.kt:145-146 | true exactly when the pattern matches at some offset |
| Text.SubstringAfterSplits | app/src/main/java/cl/jlopezr/control/core/data/service/TVDiscoveryService.kt:133 | `substringAfter` returns the whole string when the delimiter is absent; otherwise prefix, delimiter and result concatenate back to the string |
| Text.TrimSpec | app/src/main/java/cl/jlopezr/control/core/data/service/TVDiscoveryService.kt:230 | `trim` removes only whitespace, from both ends, and leaves no whitespace at either end |
| Text.TrimIdempotent | app/src/main/java/cl/jlopezr/control/core/data/service/TVDiscoveryService.kt:230 | trimming twice is trimming once |
| Text.BlankIffTrimEmpty | app/src/main/java/cl/jlopezr/control/home/presentation/HomeViewModel.kt:96 | a string is blank exactly when trimming leaves nothing |
| Text.ReplaceChar | app/src/main/java/cl/jlopezr/control/core/data/service/TVDiscoveryService.kt:158 | same length; each occurrence of the character is replaced and every other character kept |
| Text.SplitLines | app/src/main/java/cl/jlopezr/control/core/data/service/TVDiscoveryService.kt:125 | splitting always yields at least one piece |
| Text.SplitJoin | app/src/main/java/cl/jlopezr/control/core/data/service/TVDiscoveryService.kt:125 | joining the pieces with CRLF gives back the reply |
| Text.SplitLinesHaveNoBreak | app/src/main/java/cl/jlopezr/control/core/data/service/TVDiscoveryService.kt:125 | no piece contains CRLF |
| Devices.DiscoveredTv.ToTvDevice | app/src/main/java/cl/jlopezr/control/core/domain/model/DiscoveredTV.kt:14-22 | the target keeps id, name, address and the record's own port, and is not connected |
| Devices.DiscoveredTvDefaults | app/src/main/java/cl/jlopezr/control/core/domain/model/DiscoveredTV.kt:7-12 | by default a record is on port 3001, not LG, with model, manufacturer, uuid and location absent |
| Devices.ToTvDeviceKeepsDefaultPort | app/src/main/java/cl/jlopezr/control/core/domain/model/DiscoveredTV.kt:7-19 | a default record converts to port 3001, never to the target type's default 3000 |
| Session.Target | app/src/main/java/cl/jlopezr/control/core/data/repository/LGTVRepositoryImpl.kt:36-183 | for each state, exactly the events that set it: CONNECTING on connect; PAIRING on a 401 answer to "register_0"; CONNECTED on open, an error-free answer or "registered"; ERROR on setup or socket failure or another error code; DISCONNECTED on closing or disconnect |
| Session.RunIsLastTarget | app/src/main/java/cl/jlopezr/control/core/data/repository/LGTVRepositoryImpl.kt:36-183 | the state after a history is the one set by its last state-setting event, or the start state |
| Session.RunReachedBy | app/src/main/java/cl/jlopezr/control/core/data/repository/LGTVRepositoryImpl.kt:36-183 | any state other than the start state was set by some event of the history |
| Session.PairingOnlyAfter401 | app/src/main/java/cl/jlopezr/control/core/data/repository/LGTVRepositoryImpl.kt:123-132 | a session in PAIRING received a 401 response to "register_0" |
| Session.ConnectedOnlyAfterOpenOrRegistration | app/src/main/java/cl/jlopezr/control/core/data/repository/LGTVRepositoryImpl.kt:43-147 | a CONNECTED session saw the socket open, an error-free registration answer or "registered" |
| Session.InertEventsDropOut | app/src/main/java/cl/jlopezr/control/core/data/repository/LGTVRepositoryImpl.kt:150-157 | events that set nothing (binary frames, unparsable text, other types or ids) do not change the state |
| Session.DisconnectWins | app/src/main/java/cl/jlopezr/control/core/data/repository/LGTVRepositoryImpl.kt:262-266 | after a disconnect the state is DISCONNECTED whatever came before |
| Session.LgTvRepository.constructor | app/src/main/java/cl/jlopezr/control/core/data/repository/LGTVRepositoryImpl.kt:27-28 | a new session is DISCONNECTED with no socket |
| Session.LgTvRepository.ConnectToTv | app/src/main/java/cl/jlopezr/control/core/data/repository/LGTVRepositoryImpl.kt:32-188 | CONNECTING first; a setup failure gives ERROR and a failed call and keeps the old socket; otherwise a socket to the device's address and port and a pending call |
| Session.LgTvRepository.OnOpen | app/src/main/java/cl/jlopezr/control/core/data/repository/LGTVRepositoryImpl.kt:43-112 | CONNECTED, the registration with id "register_0" is sent, and only a pending call succeeds |
| Session.LgTvRepository.OnMessage | app/src/main/java/cl/jlopezr/control/core/data/repository/LGTVRepositoryImpl.kt:115-157 | the state moves as `Target` says; binary and unparsable frames change nothing |
| Session.LgTvRepository.OnClosing | app/src/main/java/cl/jlopezr/control/core/data/repository/LGTVRepositoryImpl.kt:159-162 | DISCONNECTED; the socket reference and the call result are kept |
| Session.LgTvRepository.OnFailure | app/src/main/java/cl/jlopezr/control/core/data/repository/LGTVRepositoryImpl.kt:164-171 | ERROR, and only a pending call fails |
| Session.LgTvRepository.Disconnect | app/src/main/java/cl/jlopezr/control/core/data/repository/LGTVRepositoryImpl.kt:262-266 | an existing socket is closed with 1000 "Desconexión manual"; no socket afterwards; DISCONNECTED |
| Session.LgTvRepository.SendPairingCode | app/src/main/java/cl/jlopezr/control/core/data/repository/LGTVRepositoryImpl.kt:191-260 | the registration is re-sent with the code as client key when a socket exists; always reports success; the state is unchanged |
| Session.LgTvRepository.SendCommand | app/src/main/java/cl/jlopezr/control/core/data/repository/LGTVRepositoryImpl.kt:268-275 | the text goes to the socket unchanged when one exists; always reports success |
| Discovery.Between | app/src/main/java/cl/jlopezr/control/core/data/service/TVDiscoveryService.kt:220-231 | the search of `extractXMLValue` for any pair of markers: a value exactly when `open` occurs and `close` occurs after it, found case-insensitively; the value is the trimmed text between the first such pair |
| Discovery.ExtractXmlValue | app/src/main/java/cl/jlopezr/control/core/data/service/TVDiscoveryService.kt:220-231 | a value exactly when an opening tag is followed by a closing tag, found case-insensitively; the value is the trimmed text between the first such pair |
| Discovery.ParseDeviceXml | app/src/main/java/cl/jlopezr/control/core/data/service/TVDiscoveryService.kt:189-218 | a device exactly when manufacturer, model name or friendly name mentions LG; it is LG, on port 3000, at the given location |
| Discovery.HeaderValue | app/src/main/java/cl/jlopezr/control/core/data/service/TVDiscoveryService.kt:130-142 | a header has a value exactly when some line starts with its name; the value is the trimmed text after the first ':' of the last such line |
| Discovery.HeaderValueNext | app/src/main/java/cl/jlopezr/control/core/data/service/TVDiscoveryService.kt:130-142 | one more line overrides the value when it is that header and keeps it otherwise |
| Discovery.HeaderTextAfterName | app/src/main/java/cl/jlopezr/control/core/data/service/TVDiscoveryService.kt:132-139 | for the three header names, the text after ':' is the text after the name |
| Discovery.HeaderValueAfterName | app/src/main/java/cl/jlopezr/control/core/data/service/TVDiscoveryService.kt:130-142 | for a name whose only `:` is its last character, a present header value is the trimmed text after the name on the last line that opens with it |
| Discovery.HeadersExclusive | app/src/main/java/cl/jlopezr/control/core/data/service/TVDiscoveryService.kt:131-141 | no line is two of LOCATION, SERVER and USN, so the order of the `when` branches does not matter |
| Discovery.Classify | app/src/main/java/cl/jlopezr/control/core/data/service/TVDiscoveryService.kt:144-168 | any device it yields has the reply's address and is marked LG |
| Discovery.ReplyDevice | app/src/main/java/cl/jlopezr/control/core/data/service/TVDiscoveryService.kt:122-169 | no device without a sender address; any device has the sender's address and is LG |
| Discovery.ScanHeaders | app/src/main/java/cl/jlopezr/control/core/data/service/TVDiscoveryService.kt:125-142 | the one-pass header loop yields the last LOCATION, SERVER and USN values |
| Discovery.ParseSsdp | app/src/main/java/cl/jlopezr/control/core/data/service/TVDiscoveryService.kt:122-169 | the parse gives `ReplyDevice` of the reply |
| Discovery.LgHeadersNeedNoFetch | app/src/main/java/cl/jlopezr/control/core/data/service/TVDiscoveryService.kt:145-166 | when SERVER or USN mentions LG, the result does not depend on the network; it is the header-built device |
| Discovery.FallbackNeedsLgManufacturer | app/src/main/java/cl/jlopezr/control/core/data/service/TVDiscoveryService.kt:148-153 | a reply accepted without LG headers has a fetched description whose manufacturer mentions LG; the device takes the description's name, id and port 3000 and the reply's address |
| Discovery.ModelNameAloneIsRejected | app/src/main/java/cl/jlopezr/control/core/data/service/TVDiscoveryService.kt:151-153 | without LG headers, a description whose manufacturer does not mention LG rejects the reply, even when its model or friendly name mention LG |
| Discovery.FallbackIff | app/src/main/java/cl/jlopezr/control/core/data/service/TVDiscoveryService.kt:144-153 | without LG headers, a reply is accepted exactly when its LOCATION has a fetched description whose manufacturer mentions LG |
| Discovery.Accumulate | app/src/main/java/cl/jlopezr/control/core/data/service/TVDiscoveryService.kt:43-97 | the list starts with the simulated TV, grows by at most one per receive and never lists an address twice |
| Discovery.Emit | app/src/main/java/cl/jlopezr/control/core/data/service/TVDiscoveryService.kt:94-96 | one loop step admits a new address and keeps every emitted list a prefix of the current list |
| Discovery.DiscoverTvs | app/src/main/java/cl/jlopezr/control/core/data/service/TVDiscoveryService.kt:42-120 | the last emission is the accumulated list. Each earlier emission is that list cut after one more device. A socket that cannot be set up emits an empty list, then the simulated TV |
| Discovery.AccumulateGrows | app/src/main/java/cl/jlopezr/control/core/data/service/TVDiscoveryService.kt:94-96 | the list after fewer receives is a prefix of the list after more |
| Discovery.AccumulateComplete | app/src/main/java/cl/jlopezr/control/core/data/service/TVDiscoveryService.kt:94-95 | every device a receive yields leaves its address in the list |
| Discovery.AccumulateSound | app/src/main/java/cl/jlopezr/control/core/data/service/TVDiscoveryService.kt:94-95 | every listed device after the simulated one was yielded by some receive |
| Discovery.DiscoveredExactly | app/src/main/java/cl/jlopezr/control/core/data/service/TVDiscoveryService.kt:43-119 | the final list holds every address the replies yielded and nothing else besides the simulated TV |
| Voice.OccursIsContains | app/src/main/java/cl/jlopezr/control/voice/presentation/VoiceControlViewModel.kt:211 | a keyword occurs in a phrase exactly when Kotlin's `contains` finds it |
| Voice.FirstMatchFrom | app/src/main/java/cl/jlopezr/control/voice/presentation/VoiceControlViewModel.kt:209-256 | -1 exactly when no line from `from` on matches; otherwise a matching line with none before it |
| Voice.MapVoiceCommand | app/src/main/java/cl/jlopezr/control/voice/presentation/VoiceControlViewModel.kt:208-257 | null exactly when no line of the table matches; otherwise the command of the first matching line |
| Voice.MapsToRule | app/src/main/java/cl/jlopezr/control/voice/presentation/VoiceControlViewModel.kt:209-256 | when line `n` is the first that matches, the phrase maps to line `n`'s command |
| Voice.RuleCommandsKnown | app/src/main/java/cl/jlopezr/control/voice/presentation/VoiceControlViewModel.kt:211-254 | every line's command is one of the 31 known commands |
| Voice.MappedCommandKnown | app/src/main/java/cl/jlopezr/control/voice/presentation/VoiceControlViewModel.kt:208-257 | the mapper only produces known commands |
| Voice.VolumeUpMapping | app/src/main/java/cl/jlopezr/control/voice/presentation/VoiceControlViewModel.kt:211 | "subir volumen" maps to VOLUMEUP |
| Voice.MuteMapping | app/src/main/java/cl/jlopezr/control/voice/presentation/VoiceControlViewModel.kt:211-213 | "silenciar" maps to MUTE |
| Voice.ChannelUpMapping | app/src/main/java/cl/jlopezr/control/voice/presentation/VoiceControlViewModel.kt:211-216 | "canal arriba" maps to CHANNELUP |
| Voice.ChannelBeforeNavigation | app/src/main/java/cl/jlopezr/control/voice/presentation/VoiceControlViewModel.kt:216-220 | "canal arriba" also matches the later "arriba" line, yet maps to CHANNELUP: order decides |
| Voice.PowerOnMapping | app/src/main/java/cl/jlopezr/control/voice/presentation/VoiceControlViewModel.kt:211-237 | "encender" maps to POWER |
| Voice.PowerOffMapping | app/src/main/java/cl/jlopezr/control/voice/presentation/VoiceControlViewModel.kt:211-238 | "apagar" maps to POWER as well |
| Voice.NetflixMapping | app/src/main/java/cl/jlopezr/control/voice/presentation/VoiceControlViewModel.kt:211-241 | "netflix" maps to the application id com.netflix.ninja |
| Voice.SpelledDigitMapping | app/src/main/java/cl/jlopezr/control/voice/presentation/VoiceControlViewModel.kt:211-249 | "cinco" maps to "5" |
| Voice.NumeralDigitMapping | app/src/main/java/cl/jlopezr/control/voice/presentation/VoiceControlViewModel.kt:211-249 | "5" maps to "5" |
| Voice.VoiceControl.constructor | app/src/main/java/cl/jlopezr/control/voice/presentation/VoiceControlViewModel.kt:129-140 | not listening; the availability is recorded, with an error message exactly when recognition is unavailable |
| Voice.VoiceControl.StartListening | app/src/main/java/cl/jlopezr/control/voice/presentation/VoiceControlViewModel.kt:149-171 | unavailable: error "Reconocimiento de voz no disponible" and the listening flag unchanged; available: listening, error cleared |
| Voice.VoiceControl.StopListening | app/src/main/java/cl/jlopezr/control/voice/presentation/VoiceControlViewModel.kt:173-177 | not listening |
| Voice.VoiceControl.SendCommandToTv | app/src/main/java/cl/jlopezr/control/voice/presentation/VoiceControlViewModel.kt:260-262 | the command is handed to the session |
| Voice.VoiceControl.ProcessVoiceCommand | app/src/main/java/cl/jlopezr/control/voice/presentation/VoiceControlViewModel.kt:196-206 | a mapped phrase shows "Ejecutando: " and the command is sent; an unmapped one shows "Comando no reconocido: " and the error "Comando '…' no reconocido", and nothing is sent |
| Voice.VoiceControl.OnSpeechResult | app/src/main/java/cl/jlopezr/control/voice/presentation/VoiceControlViewModel.kt:179-188 | no alternatives: nothing changes; otherwise the lower-cased first alternative becomes the last command, listening stops and the command is processed |
| Voice.VoiceControl.OnSpeechError | app/src/main/java/cl/jlopezr/control/voice/presentation/VoiceControlViewModel.kt:190-194 | listening stops; the error is "Error de reconocimiento: " and the message |
| Voice.VoiceControl.OnSendResult | app/src/main/java/cl/jlopezr/control/voice/presentation/VoiceControlViewModel.kt:263-272 | success shows "Comando '…' enviado exitosamente"; failure shows "Error enviando comando '…'" and the error "Error enviando comando: " and the message, or "null" |
| Voice.VoiceControl.ClearError | app/src/main/java/cl/jlopezr/control/voice/presentation/VoiceControlViewModel.kt:292-294 | no error |
| Home.ConnectTarget | app/src/main/java/cl/jlopezr/control/home/domain/usecase/ConnectToTVUseCase.kt:10-17 | the connect use case targets "lg_tv_1" "LG TV" at the typed address on port 3001 |
| Home.DialogAfterIff | app/src/main/java/cl/jlopezr/control/home/presentation/HomeViewModel.kt:198-202 | after observing a run of connection states the dialog is open exactly when it was open before or the run passed through PAIRING |
| Home.HomeViewModel.constructor | app/src/main/java/cl/jlopezr/control/home/presentation/HomeViewModel.kt:43-50 | every field at its default |
| Home.HomeViewModel.UpdateIpAddress | app/src/main/java/cl/jlopezr/control/home/presentation/HomeViewModel.kt:90-93 | the address is stored and the error cleared |
| Home.HomeViewModel.ConnectToTv | app/src/main/java/cl/jlopezr/control/home/presentation/HomeViewModel.kt:95-121 | blank address: error "Por favor ingresa la IP del TV" and no call; otherwise one connect call for the address; the error is "Error al conectar: …" only on failure; not loading afterwards |
| Home.HomeViewModel.DisconnectFromTv | app/src/main/java/cl/jlopezr/control/home/presentation/HomeViewModel.kt:123-127 | one disconnect call |
| Home.HomeViewModel.ClearError | app/src/main/java/cl/jlopezr/control/home/presentation/HomeViewModel.kt:129-131 | no error |
| Home.HomeViewModel.DiscoverTvs | app/src/main/java/cl/jlopezr/control/home/presentation/HomeViewModel.kt:133-148 | the shown list is the last emitted one (unchanged when none); the error is "Error al buscar TVs: …" only when the flow threw; not discovering afterwards |
| Home.HomeViewModel.SelectTv | app/src/main/java/cl/jlopezr/control/home/presentation/HomeViewModel.kt:150-154 | the device is selected, its address fills the IP field, the error is cleared |
| Home.HomeViewModel.ConnectToSelectedTv | app/src/main/java/cl/jlopezr/control/home/presentation/HomeViewModel.kt:156-165 | "Por favor selecciona un TV o ingresa una IP" exactly when there is no selection and the address is blank; otherwise as `ConnectToTv`, which refuses a selected device with a blank address |
| Home.HomeViewModel.UpdatePairingCode | app/src/main/java/cl/jlopezr/control/home/presentation/HomeViewModel.kt:168-170 | the code is stored |
| Home.HomeViewModel.SendPairingCode | app/src/main/java/cl/jlopezr/control/home/presentation/HomeViewModel.kt:172-182 | the typed code is sent; once the call returns, whatever its result, the dialog closes and the code is cleared; only an exception keeps them and shows an error |
| Home.HomeViewModel.ShowPairingDialog | app/src/main/java/cl/jlopezr/control/home/presentation/HomeViewModel.kt:184-186 | the dialog is open |
| Home.HomeViewModel.HidePairingDialog | app/src/main/java/cl/jlopezr/control/home/presentation/HomeViewModel.kt:188-191 | the dialog is closed and the code cleared |
| Home.HomeViewModel.OnConnectionState | app/src/main/java/cl/jlopezr/control/home/presentation/HomeViewModel.kt:198-202 | PAIRING opens the dialog; no state closes it |
| Home.HomeViewModel.ObserveConnectionStates | app/src/main/java/cl/jlopezr/control/home/presentation/HomeViewModel.kt:193-204 | the observer loop leaves the dialog open exactly when it was open or PAIRING was seen |

## Left out

- JSON: incoming frames arrive already parsed. Outgoing registration frames carry their id and client key, not the fixed manifest text.
- Coroutines, cancellation (`invokeOnCancellation` closing the socket with "Cancelled") and interleavings of callbacks. Each callback and each awaited call runs to completion, in the order given.
- The `uiState` flows that combine the fields: the model's fields are those states.
- Logging.
- Text.Lower: folds ASCII letters only. Kotlin's `lowercase(Locale.getDefault())` also folds accented and locale-specific letters. The same holds for the `ignoreCase` comparisons.
- The speech recognizer itself: availability is a constructor parameter, and results and errors arrive as method calls. The table that turns recognizer error codes into messages is not modelled. The resulting message is the parameter of `OnSpeechError`.
- `openNetflix`, `openYouTube`, `powerOff` and `sendDirectionalCommand`: one-line calls of `sendCommandToTV` with a fixed or given command.
- Discovery I/O:
  - the multicast lock, the SSDP search message, the socket timeout and the 5000 ms listening window;
  - the 1024-byte receive buffer and byte decoding.

  A run is a finite sequence of receives. Each receive is a reply or a swallowed error.
- `java.net.URL` parsing: the host of each LOCATION is part of the network input, and an unparsable URL has no entry.
- HTTP: a description fetch answers the body served for the URL, or nothing. Status codes and exceptions collapse into "nothing".
- The home screen's start-up call of `discoverTVs`: it is the `DiscoverTvs` method called on a new screen. The repository's connection-state flow is the sequence passed to `ObserveConnectionStates`.
- Session.LgTvRepository.SendPairingCode: the catch that turns an exception from `send` into a failure result is not modelled. The socket's `send` reports delivery as a boolean and does not throw, so the method always reports success.
- Session.LgTvRepository.SendCommand: the same catch is not modelled, for the same reason; the method always reports success.
- Home.HomeViewModel.ConnectToTv: the loading flag is true only during the awaited call. The model states its value afterwards, not during the call.
- Behaviours that may look unintended are modelled as the code has them:
  - the description-based fallback accepts a reply only on its manufacturer (`TVDiscoveryService.kt` lines 151-152), although `parseDeviceXML` also accepts model and friendly names;
  - `onClosing` sets DISCONNECTED but keeps the socket reference;
  - the discovery error path emits an empty list before the final list.
