/**
 * Voice control (VoiceControlViewModel): a recognised phrase is mapped to a
 * TV command by an ordered table of substring rules, and a handful of screen
 * fields record what happened.
 */
module Voice {
  import opened Wrappers
  import opened Text

  /** One line of the mapping table: any of `keywords` occurring in the phrase selects `command`. */
  datatype Rule = Rule(keywords: seq<string>, command: string)

  /** Line `k` of the mapping table; the lines are tried in order of `k`. */
  function RuleAt(k: int): Rule {
    if k == 0 then Rule(["subir volumen", "más volumen"], "VOLUMEUP")
    else if k == 1 then Rule(["bajar volumen", "menos volumen"], "VOLUMEDOWN")
    else if k == 2 then Rule(["silenciar", "mute"], "MUTE")
    else if k == 3 then Rule(["canal arriba", "siguiente canal"], "CHANNELUP")
    else if k == 4 then Rule(["canal abajo", "canal anterior"], "CHANNELDOWN")
    else if k == 5 then Rule(["arriba"], "UP")
    else if k == 6 then Rule(["abajo"], "DOWN")
    else if k == 7 then Rule(["izquierda"], "LEFT")
    else if k == 8 then Rule(["derecha"], "RIGHT")
    else if k == 9 then Rule(["ok", "enter", "seleccionar"], "ENTER")
    else if k == 10 then Rule(["atrás", "volver"], "BACK")
    else if k == 11 then Rule(["home", "inicio"], "HOME")
    else if k == 12 then Rule(["menú"], "MENU")
    else if k == 13 then Rule(["play", "reproducir"], "PLAY")
    else if k == 14 then Rule(["pausa", "pausar"], "PAUSE")
    else if k == 15 then Rule(["stop", "parar"], "STOP")
    else if k == 16 then Rule(["adelantar"], "FASTFORWARD")
    else if k == 17 then Rule(["retroceder"], "REWIND")
    else if k == 18 then Rule(["encender"], "POWER")
    else if k == 19 then Rule(["apagar"], "POWER")
    else if k == 20 then Rule(["netflix"], "com.netflix.ninja")
    else if k == 21 then Rule(["youtube"], "youtube.leanback.v4")
    else if k == 22 then Rule(["uno", "1"], "1")
    else if k == 23 then Rule(["dos", "2"], "2")
    else if k == 24 then Rule(["tres", "3"], "3")
    else if k == 25 then Rule(["cuatro", "4"], "4")
    else if k == 26 then Rule(["cinco", "5"], "5")
    else if k == 27 then Rule(["seis", "6"], "6")
    else if k == 28 then Rule(["siete", "7"], "7")
    else if k == 29 then Rule(["ocho", "8"], "8")
    else if k == 30 then Rule(["nueve", "9"], "9")
    else Rule(["cero", "0"], "0")
  }

  /** The table as a value, so that the generic definitions below do not unfold it. */
  const Table: int -> Rule := RuleAt

  /** The number of lines in the table. */
  const RuleCount: nat := 32

  /** Every command the table can produce. */
  const VoiceCommands: set<string> := {
    "VOLUMEUP", "VOLUMEDOWN", "MUTE", "CHANNELUP", "CHANNELDOWN",
    "UP", "DOWN", "LEFT", "RIGHT", "ENTER", "BACK", "HOME", "MENU",
    "PLAY", "PAUSE", "STOP", "FASTFORWARD", "REWIND", "POWER",
    "com.netflix.ninja", "youtube.leanback.v4",
    "1", "2", "3", "4", "5", "6", "7", "8", "9", "0"
  }

  /**
   * Kotlin's case-sensitive `phrase.contains(keyword)`, written as a bare
   * search over the offsets. The table is matched through this form rather
   * than `Contains`, so that proofs about the table do not unfold the
   * recursive `IndexOf` search. `OccursIsContains` shows the two agree.
   */
  predicate Occurs(phrase: string, keyword: string) {
    exists i :: 0 <= i <= |phrase| - |keyword| && RegionMatches(phrase, i, keyword, false)
  }

  /** The search over offsets is Kotlin's `contains`. */
  lemma OccursIsContains(phrase: string, keyword: string)
    ensures Occurs(phrase, keyword) <==> Contains(phrase, keyword, false)
  {
  }

  /** Some keyword of the rule occurs in the phrase. */
  predicate RuleMatches(rule: Rule, phrase: string) {
    exists k :: 0 <= k < |rule.keywords| && Occurs(phrase, rule.keywords[k])
  }

  /** Line `n` is the first line of the table that matches. */
  ghost predicate FirstMatch(phrase: string, n: int) {
    0 <= n < RuleCount && RuleMatches(Table(n), phrase) &&
    forall k :: 0 <= k < n ==> !RuleMatches(Table(k), phrase)
  }

  /** The first line at or after `from` that matches, or -1. */
  function FirstMatchFrom(phrase: string, from: nat): (n: int)
    decreases RuleCount - from
    ensures n == -1 <==> forall k :: from <= k < RuleCount ==> !RuleMatches(Table(k), phrase)
    ensures n != -1 ==>
      from <= n < RuleCount && RuleMatches(Table(n), phrase) &&
      forall k :: from <= k < n ==> !RuleMatches(Table(k), phrase)
  {
    if from >= RuleCount then -1
    else if RuleMatches(Table(from), phrase) then from
    else FirstMatchFrom(phrase, from + 1)
  }

  /** `mapVoiceCommandToTVCommand`: the command of the first line that matches, or nothing. */
  function MapVoiceCommand(phrase: string): (r: Option<string>)
    ensures r.None? <==> forall k :: 0 <= k < RuleCount ==> !RuleMatches(Table(k), phrase)
    ensures r.Some? ==> exists n :: FirstMatch(phrase, n) && r.value == Table(n).command
  {
    var n := FirstMatchFrom(phrase, 0);
    if n == -1 then None
    else
      assert FirstMatch(phrase, n);
      Some(Table(n).command)
  }

  /** Every command of the table is one of the known commands. */
  lemma RuleCommandsKnown()
    ensures forall k :: 0 <= k < RuleCount ==> Table(k).command in VoiceCommands
  {
  }

  /** The mapper only ever produces known commands. */
  lemma MappedCommandKnown(phrase: string)
    ensures MapVoiceCommand(phrase).Some? ==> MapVoiceCommand(phrase).value in VoiceCommands
  {
    RuleCommandsKnown();
  }

  /** When line `n` is the first that matches, the phrase maps to its command. */
  lemma MapsToRule(phrase: string, n: int)
    requires FirstMatch(phrase, n)
    ensures MapVoiceCommand(phrase) == Some(Table(n).command)
  {
    var m := FirstMatchFrom(phrase, 0);
    assert m != -1;
    FirstMatchUnique(phrase, m, n);
  }

  /** At most one line is the first that matches. */
  lemma FirstMatchUnique(phrase: string, m: int, n: int)
    requires FirstMatch(phrase, m) && FirstMatch(phrase, n)
    ensures m == n
  {
  }

  // ---------------------------------------------------------------------
  // Ruling keywords out on concrete phrases.
  // Proof scaffolding for the concrete mappings below: these predicates and
  // lemmas have no counterpart in the screen's code. They restate "keyword
  // not contained" as a test the verifier can evaluate on literal phrases.
  // ---------------------------------------------------------------------

  /** Some character of `p` from offset `j` on differs from `s` at offset `i + j`. */
  predicate DiffersAt(s: string, i: nat, p: string, j: nat)
    requires i + |p| <= |s|
    decreases |p| - j
  {
    j < |p| && (s[i + j] != p[j] || DiffersAt(s, i, p, j + 1))
  }

  /** `p` occurs at no offset of `s` from `i` on: a test that evaluates on literals. */
  predicate AbsentFrom(s: string, p: string, i: nat)
    decreases |s| - i
  {
    i + |p| > |s| || (DiffersAt(s, i, p, 0) && AbsentFrom(s, p, i + 1))
  }

  lemma {:induction false} DiffersAtMismatch(s: string, i: nat, p: string, j: nat)
    requires i + |p| <= |s| && DiffersAt(s, i, p, j)
    ensures !RegionMatches(s, i, p, false)
    decreases |p| - j
  {
    if s[i + j] == p[j] {
      DiffersAtMismatch(s, i, p, j + 1);
    } else {
      assert !CharEquals(s[i + j], p[j], false);
    }
  }

  /** The literal test is sound: an absent keyword is not contained. */
  lemma {:induction false} AbsentNotContained(s: string, p: string, i: nat)
    requires AbsentFrom(s, p, i)
    ensures forall m :: i <= m ==> !RegionMatches(s, m, p, false)
    decreases |s| - i
  {
    if i + |p| <= |s| {
      DiffersAtMismatch(s, i, p, 0);
      AbsentNotContained(s, p, i + 1);
    }
  }

  /** No keyword of `keywords` from index `j` on occurs in `phrase`, by the literal test. */
  predicate KeywordsAbsent(keywords: seq<string>, phrase: string, j: nat)
    decreases |keywords| - j
  {
    j >= |keywords| || (AbsentFrom(phrase, keywords[j], 0) && KeywordsAbsent(keywords, phrase, j + 1))
  }

  /** No keyword of table lines `[lo, hi)` occurs in `phrase`, by the literal test. */
  predicate LinesAbsent(phrase: string, lo: nat, hi: nat)
    decreases hi - lo
  {
    lo >= hi || (KeywordsAbsent(Table(lo).keywords, phrase, 0) && LinesAbsent(phrase, lo + 1, hi))
  }

  lemma {:induction false} KeywordsAbsentNoMatch(keywords: seq<string>, phrase: string, j: nat)
    requires KeywordsAbsent(keywords, phrase, j)
    ensures forall k :: j <= k < |keywords| ==> !Occurs(phrase, keywords[k])
    decreases |keywords| - j
  {
    if j < |keywords| {
      AbsentNotContained(phrase, keywords[j], 0);
      KeywordsAbsentNoMatch(keywords, phrase, j + 1);
    }
  }

  /** A line none of whose keywords passes the literal test does not match. */
  lemma RuleScreened(rule: Rule, phrase: string)
    requires KeywordsAbsent(rule.keywords, phrase, 0)
    ensures !RuleMatches(rule, phrase)
  {
    KeywordsAbsentNoMatch(rule.keywords, phrase, 0);
  }

  /** A screened range of lines holds no matching line. */
  lemma {:induction false} LinesScreened(phrase: string, lo: nat, hi: nat)
    requires LinesAbsent(phrase, lo, hi)
    ensures forall k :: lo <= k < hi ==> !RuleMatches(Table(k), phrase)
    decreases hi - lo
  {
    forall k | lo <= k < hi
      ensures !RuleMatches(Table(k), phrase)
    {
      LineScreened(phrase, lo, hi, k);
    }
  }

  lemma {:induction false} LineScreened(phrase: string, lo: nat, hi: nat, k: int)
    requires LinesAbsent(phrase, lo, hi) && lo <= k < hi
    ensures !RuleMatches(Table(k), phrase)
    decreases hi - lo
  {
    if k == lo {
      RuleScreened(Table(lo), phrase);
    } else {
      LineScreened(phrase, lo + 1, hi, k);
    }
  }


  /** Two adjacent screened ranges make one. */
  lemma {:induction false} LinesAbsentJoin(phrase: string, lo: nat, mid: nat, hi: nat)
    requires lo <= mid <= hi
    requires LinesAbsent(phrase, lo, mid) && LinesAbsent(phrase, mid, hi)
    ensures LinesAbsent(phrase, lo, hi)
    decreases mid - lo
  {
    if lo < mid {
      LinesAbsentJoin(phrase, lo + 1, mid, hi);
    }
  }

  /** A phrase that passes the literal test on every line before `n`, and matches line `n`, maps to line `n`'s command. */
  lemma MapsToScreenedLine(phrase: string, n: nat)
    requires n < RuleCount && LinesAbsent(phrase, 0, n) && RuleMatches(Table(n), phrase)
    ensures MapVoiceCommand(phrase) == Some(Table(n).command)
  {
    LinesScreened(phrase, 0, n);
    MapsToRule(phrase, n);
  }

  /** A keyword found at a known offset occurs. */
  lemma FoundAt(s: string, p: string, i: nat)
    requires RegionMatches(s, i, p, false)
    ensures Occurs(s, p)
  {
  }

  // ---------------------------------------------------------------------
  // Concrete mappings. The `...Absent...` lemmas are proof scaffolding with
  // no counterpart in the source: each evaluates the literal test on its own,
  // on a range of at most seven table lines. The screening lemmas turn it
  // into "no earlier line matches", and the first matching line then decides.
  // ---------------------------------------------------------------------

  lemma CanalArribaAbsent()
    ensures LinesAbsent("canal arriba", 0, 3)
  {
  }

  lemma SilenciarAbsent()
    ensures LinesAbsent("silenciar", 0, 2)
  {
  }

  lemma EncenderAbsentA()
    ensures LinesAbsent("encender", 0, 7)
  {
  }

  lemma EncenderAbsentB()
    ensures LinesAbsent("encender", 7, 14)
  {
  }

  lemma EncenderAbsentC()
    ensures LinesAbsent("encender", 14, 18)
  {
  }

  lemma ApagarAbsentA()
    ensures LinesAbsent("apagar", 0, 7)
  {
  }

  lemma ApagarAbsentB()
    ensures LinesAbsent("apagar", 7, 14)
  {
  }

  lemma ApagarAbsentC()
    ensures LinesAbsent("apagar", 14, 19)
  {
  }

  lemma NetflixAbsentA()
    ensures LinesAbsent("netflix", 0, 7)
  {
  }

  lemma NetflixAbsentB()
    ensures LinesAbsent("netflix", 7, 14)
  {
  }

  lemma NetflixAbsentC()
    ensures LinesAbsent("netflix", 14, 20)
  {
  }

  lemma CincoAbsentA()
    ensures LinesAbsent("cinco", 0, 7)
  {
  }

  lemma CincoAbsentB()
    ensures LinesAbsent("cinco", 7, 14)
  {
  }

  lemma CincoAbsentC()
    ensures LinesAbsent("cinco", 14, 21)
  {
  }

  lemma CincoAbsentD()
    ensures LinesAbsent("cinco", 21, 26)
  {
  }

  lemma FiveAbsentA()
    ensures LinesAbsent("5", 0, 7)
  {
  }

  lemma FiveAbsentB()
    ensures LinesAbsent("5", 7, 14)
  {
  }

  lemma FiveAbsentC()
    ensures LinesAbsent("5", 14, 21)
  {
  }

  lemma FiveAbsentD()
    ensures LinesAbsent("5", 21, 26)
  {
  }

  lemma ChannelUpMapping()
    ensures MapVoiceCommand("canal arriba") == Some("CHANNELUP")
  {
    CanalArribaAbsent();
    FoundAt("canal arriba", "canal arriba", 0);
    assert Table(3) == RuleAt(3);
    assert RuleAt(3).keywords[0] == "canal arriba";
    MapsToScreenedLine("canal arriba", 3);
  }

  /** The channel lines come first: "canal arriba" is CHANNELUP, although the later "arriba" line matches it too. */
  lemma ChannelBeforeNavigation()
    ensures Occurs("canal arriba", "arriba") && RuleMatches(Table(5), "canal arriba")
    ensures MapVoiceCommand("canal arriba") == Some("CHANNELUP")
  {
    FoundAt("canal arriba", "arriba", 6);
    assert Table(5) == RuleAt(5);
    assert RuleAt(5).keywords[0] == "arriba";
    ChannelUpMapping();
  }

  lemma VolumeUpMapping()
    ensures MapVoiceCommand("subir volumen") == Some("VOLUMEUP")
  {
    FoundAt("subir volumen", "subir volumen", 0);
    assert Table(0) == RuleAt(0);
    assert RuleAt(0).keywords[0] == "subir volumen";
    MapsToScreenedLine("subir volumen", 0);
  }

  lemma MuteMapping()
    ensures MapVoiceCommand("silenciar") == Some("MUTE")
  {
    SilenciarAbsent();
    FoundAt("silenciar", "silenciar", 0);
    assert Table(2) == RuleAt(2);
    assert RuleAt(2).keywords[0] == "silenciar";
    MapsToScreenedLine("silenciar", 2);
  }

  /** Both "encender" and "apagar" toggle power. */
  lemma PowerOnMapping()
    ensures MapVoiceCommand("encender") == Some("POWER")
  {
    EncenderAbsentA();
    EncenderAbsentB();
    EncenderAbsentC();
    LinesAbsentJoin("encender", 0, 7, 14);
    LinesAbsentJoin("encender", 0, 14, 18);
    FoundAt("encender", "encender", 0);
    assert Table(18) == RuleAt(18);
    assert RuleAt(18).keywords[0] == "encender";
    MapsToScreenedLine("encender", 18);
  }

  lemma PowerOffMapping()
    ensures MapVoiceCommand("apagar") == Some("POWER")
  {
    ApagarAbsentA();
    ApagarAbsentB();
    ApagarAbsentC();
    LinesAbsentJoin("apagar", 0, 7, 14);
    LinesAbsentJoin("apagar", 0, 14, 19);
    FoundAt("apagar", "apagar", 0);
    assert Table(19) == RuleAt(19);
    assert RuleAt(19).keywords[0] == "apagar";
    MapsToScreenedLine("apagar", 19);
  }

  /** An application name maps to the application's identifier. */
  lemma NetflixMapping()
    ensures MapVoiceCommand("netflix") == Some("com.netflix.ninja")
  {
    NetflixAbsentA();
    NetflixAbsentB();
    NetflixAbsentC();
    LinesAbsentJoin("netflix", 0, 7, 14);
    LinesAbsentJoin("netflix", 0, 14, 20);
    FoundAt("netflix", "netflix", 0);
    assert Table(20) == RuleAt(20);
    assert RuleAt(20).keywords[0] == "netflix";
    MapsToScreenedLine("netflix", 20);
  }

  /** A digit is recognised both spelled out and as a numeral. */
  lemma SpelledDigitMapping()
    ensures MapVoiceCommand("cinco") == Some("5")
  {
    CincoAbsentA();
    CincoAbsentB();
    CincoAbsentC();
    CincoAbsentD();
    LinesAbsentJoin("cinco", 0, 7, 14);
    LinesAbsentJoin("cinco", 0, 14, 21);
    LinesAbsentJoin("cinco", 0, 21, 26);
    FoundAt("cinco", "cinco", 0);
    assert Table(26) == RuleAt(26);
    assert RuleAt(26).keywords[0] == "cinco";
    MapsToScreenedLine("cinco", 26);
  }

  lemma NumeralDigitMapping()
    ensures MapVoiceCommand("5") == Some("5")
  {
    FiveAbsentA();
    FiveAbsentB();
    FiveAbsentC();
    FiveAbsentD();
    LinesAbsentJoin("5", 0, 7, 14);
    LinesAbsentJoin("5", 0, 14, 21);
    LinesAbsentJoin("5", 0, 21, 26);
    FoundAt("5", "5", 0);
    assert Table(26) == RuleAt(26);
    assert RuleAt(26).keywords[1] == "5";
    MapsToScreenedLine("5", 26);
  }

  // ---------------------------------------------------------------------
  // The view model
  // ---------------------------------------------------------------------

  /** How the asynchronous `sendCommand` call ended; a failure may carry no message. */
  datatype SendOutcome = Delivered | Undelivered(message: Option<string>)

  /** The voice screen's state, and the commands it handed to the session. */
  class VoiceControl {
    var isListening: bool
    var lastCommand: string
    var lastResult: string
    var errorMessage: Option<string>
    var recognitionAvailable: bool
    var sent: seq<string>

    /** Listening is only ever switched on where recognition is available. */
    ghost predicate Valid()
      reads this
    {
      isListening ==> recognitionAvailable
    }

    /** Start-up: record whether the device can recognise speech, with an error when it cannot. */
    constructor (available: bool)
      ensures Valid()
      ensures recognitionAvailable == available && !isListening
      ensures lastCommand == "" && lastResult == "" && sent == []
      ensures errorMessage == (if available then None else Some("Reconocimiento de voz no disponible en este dispositivo"))
    {
      isListening := false;
      lastCommand := "";
      lastResult := "";
      sent := [];
      recognitionAvailable := available;
      errorMessage := if available then None else Some("Reconocimiento de voz no disponible en este dispositivo");
    }

    /** `startListening`: refused with an error when recognition is unavailable. */
    method StartListening()
      requires Valid()
      modifies this`isListening, this`errorMessage
      ensures Valid()
      ensures !recognitionAvailable ==>
        isListening == old(isListening) && errorMessage == Some("Reconocimiento de voz no disponible")
      ensures recognitionAvailable ==> isListening && errorMessage == None
    {
      if !recognitionAvailable {
        errorMessage := Some("Reconocimiento de voz no disponible");
        return;
      }
      isListening := true;
      errorMessage := None;
    }

    /** `stopListening`. */
    method StopListening()
      requires Valid()
      modifies this`isListening
      ensures Valid()
      ensures !isListening
    {
      isListening := false;
    }

    /** `sendCommandToTV`: hand the command to the session; its outcome arrives later. */
    method SendCommandToTv(command: string)
      modifies this`sent
      ensures sent == old(sent) + [command]
    {
      sent := sent + [command];
    }

    /** `processVoiceCommand`: run the mapped command, or report the phrase as not recognised. */
    method ProcessVoiceCommand(command: string)
      modifies this`lastResult, this`errorMessage, this`sent
      ensures MapVoiceCommand(command).Some? ==>
        var c := MapVoiceCommand(command).value;
        lastResult == "Ejecutando: " + c && sent == old(sent) + [c] && errorMessage == old(errorMessage)
      ensures MapVoiceCommand(command).None? ==>
        lastResult == "Comando no reconocido: " + command &&
        errorMessage == Some("Comando '" + command + "' no reconocido") && sent == old(sent)
    {
      var tvCommand := MapVoiceCommand(command);
      if tvCommand.Some? {
        lastResult := "Ejecutando: " + tvCommand.value;
        SendCommandToTv(tvCommand.value);
      } else {
        lastResult := "Comando no reconocido: " + command;
        errorMessage := Some("Comando '" + command + "' no reconocido");
      }
    }

    /** `onSpeechResult`: the first alternative, lower-cased, is the command; nothing happens without one. */
    method OnSpeechResult(results: seq<string>)
      requires Valid()
      modifies this
      ensures Valid()
      ensures recognitionAvailable == old(recognitionAvailable)
      ensures results == [] ==>
        isListening == old(isListening) && lastCommand == old(lastCommand) && lastResult == old(lastResult) &&
        errorMessage == old(errorMessage) && sent == old(sent)
      ensures results != [] ==> lastCommand == Lower(results[0]) && !isListening
      ensures results != [] && MapVoiceCommand(lastCommand).Some? ==>
        lastResult == "Ejecutando: " + MapVoiceCommand(lastCommand).value &&
        sent == old(sent) + [MapVoiceCommand(lastCommand).value] && errorMessage == old(errorMessage)
      ensures results != [] && MapVoiceCommand(lastCommand).None? ==>
        lastResult == "Comando no reconocido: " + lastCommand &&
        errorMessage == Some("Comando '" + lastCommand + "' no reconocido") && sent == old(sent)
    {
      if |results| > 0 {
        var command := Lower(results[0]);
        lastCommand := command;
        isListening := false;
        ProcessVoiceCommand(command);
      }
    }

    /** `onSpeechError`: listening stops and the message is shown with a prefix. */
    method OnSpeechError(error: string)
      requires Valid()
      modifies this`isListening, this`errorMessage
      ensures Valid()
      ensures !isListening && errorMessage == Some("Error de reconocimiento: " + error)
    {
      isListening := false;
      errorMessage := Some("Error de reconocimiento: " + error);
    }

    /** The outcome of a send started by `sendCommandToTV` for `command`. */
    method OnSendResult(command: string, outcome: SendOutcome)
      modifies this`lastResult, this`errorMessage
      ensures outcome.Delivered? ==>
        lastResult == "Comando '" + command + "' enviado exitosamente" && errorMessage == old(errorMessage)
      ensures outcome.Undelivered? ==>
        errorMessage == Some("Error enviando comando: " + Show(outcome.message)) &&
        lastResult == "Error enviando comando '" + command + "'"
    {
      match outcome {
        case Delivered =>
          lastResult := "Comando '" + command + "' enviado exitosamente";
        case Undelivered(message) =>
          errorMessage := Some("Error enviando comando: " + Show(message));
          lastResult := "Error enviando comando '" + command + "'";
      }
    }

    /** `clearError`. */
    method ClearError()
      modifies this`errorMessage
      ensures errorMessage == None
    {
      errorMessage := None;
    }
  }
}
