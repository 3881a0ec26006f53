/**
 * The chat-turn state machine of App.tsx. `handleSendMessage` is an
 * `async` handler whose `await` on the gateway splits one turn in two:
 * `BeginTurn` (guard, user message, history) runs when the user submits,
 * `CompleteTurn` runs when the gateway's promise settles. Other events
 * (an upload, a quick-action button, typing) may happen in between.
 */
module App {
  import opened Wrappers
  import opened Types
  import opened JsString
  import opened ResponseInterpreter
  import opened ChatHistory

  const WelcomeText: string :=
    "**VARAKA-NEXUS DİJİTAL OPERATÖR SİSTEMİ**\n      \nSistem hazır. Gerçekçi simülasyon için:\n"
    + "1.  **Veri Yapılandırma** butonundan Makine DNA'sını ve Geçmiş Verileri yükleyin.\n"
    + "2.  Sol panelden anlık **Kirlilik/Atık Oranını** girin.\n      "

  /** The greeting every session starts with. */
  const WelcomeMessage: ChatMessage := ChatMessage("welcome", Model, WelcomeText)

  /** The fixed reply when the gateway call throws. */
  const ApologyText: string := "⚠️ **Sistem Hatası:** Simülasyon motoruna erişilemedi."

  /** The fixed reply announcing that historical data was loaded. */
  const UploadNotice: string :=
    "✅ **FINE-TUNING BAŞARILI:** 6 aylık üretim veri seti işlendi. AI artık Varaka'nın "
    + "üretim alışkanlıklarını ve atık kağıt tepkilerini biliyor."

  const DefaultTelemetry: ProductionTelemetry := ProductionTelemetry(
    HpFluting, 120.0, 600.0, 3.2, 350.0, 1.8, 200.0, 180.0, LowA3Local,
    Occ100, Cationic, Asa, 7.2, 3500.0, 35.0, 12.0, 7.5, 3.5)

  const DefaultUnitCosts: UnitCosts := UnitCosts(0.12, 25.0, 600.0, 150.0, 1.5)

  const DefaultMachineConstants: MachineConstants := MachineConstants(250.0, 5.0, 85.0, 40.0)

  /** Everything `sendMessageToGemini` is called with. */
  datatype GatewayRequest = GatewayRequest(
    userMessage: string,
    telemetry: ProductionTelemetry,
    unitCosts: UnitCosts,
    machineConstants: MachineConstants,
    hasHistoricalData: bool,
    history: seq<HistoryTurn>)

  /** How the gateway's promise settles: with the reply text, or by throwing. */
  datatype GatewayOutcome = GatewayOk(text: string) | GatewayFailed

  /** The three quick-action buttons. */
  datatype SimulationKind = Lightweighting | Waste | Efficiency

  /**
   * The guard of `handleSendMessage`: `!inputValue.trim() || isLoading`
   * rejects, so a submission goes ahead when the trimmed input is
   * non-empty and no turn is in flight.
   */
  function CanSubmit(input: string, loading: bool): (r: bool)
    ensures r <==> !loading && !IsBlank(input)
  {
    TrimEmptyIffBlank(input);
    Trim(input) != [] && !loading
  }

  /** The guard in terms of the characters typed. */
  lemma CanSubmitIffNotBlank(input: string, loading: bool)
    ensures CanSubmit(input, loading) <==> !loading && exists i :: 0 <= i < |input| && !IsWhitespace(input[i])
  {
    TrimEmptyIffBlank(input);
  }

  /** `handleKeyDown`: Enter without Shift submits. */
  predicate IsSendKey(key: string, shiftKey: bool) {
    key == "Enter" && !shiftKey
  }

  /** The fixed wording of the quick-action prompts around the interpolated settings. */
  const LightweightingTail := ". 140 gsm mukavemetini bu gramajda yakalamak için optimum reçete nedir? Atık oranını dikkate al."
  const WasteMiddle := " seviyesine çıktı. CMT düşüşünü engellemek için Rafinasyon ve Nişasta'da nasıl bir agresif ayar yapmalıyız? Makine trim "
  const EfficiencyTail := ". Hızı 50 m/dk artırırsak kirlilik yüzünden kopma riski ne olur?"

  /** The settings a quick action interpolates into its prompt, each as `fmt` renders it, all occur in `p`. */
  predicate QuotesSettings(kind: SimulationKind, t: ProductionTelemetry, c: MachineConstants, fmt: real -> string, p: string) {
    match kind
    case Lightweighting => Includes(p, fmt(t.grammage)) && Includes(p, fmt(t.wasteContent)) && Includes(p, fmt(t.targetCMT))
    case Waste => Includes(p, fmt(t.wasteContent)) && Includes(p, fmt(c.trimWidth))
    case Efficiency => Includes(p, fmt(t.machineSpeed)) && Includes(p, fmt(c.productionEfficiency))
  }

  /**
   * The prompt `runSimulation` writes into the input box. `fmt` stands for
   * JavaScript's conversion of a number to text inside a template literal.
   * Every prompt quotes the live settings its action is about and passes
   * the blank test of the submission guard.
   */
  function SimulationPrompt(kind: SimulationKind, t: ProductionTelemetry, c: MachineConstants, fmt: real -> string): (r: string)
    ensures QuotesSettings(kind, t, c, fmt, r)
    ensures Trim(r) != []
  {
    match kind
    case Lightweighting => LightweightingPrompt(t, fmt)
    case Waste => WastePrompt(t, c, fmt)
    case Efficiency => EfficiencyPrompt(t, c, fmt)
  }

  /** The lightweighting prompt quotes the current grammage, waste content and CMT target. */
  function LightweightingPrompt(t: ProductionTelemetry, fmt: real -> string): (r: string)
    ensures Includes(r, fmt(t.grammage)) && Includes(r, fmt(t.wasteContent)) && Includes(r, fmt(t.targetCMT))
    ensures Trim(r) != []
  {
    var a := "Elimde " + fmt(t.grammage);
    var b := a + " gsm HP Fluting var. Atık Oranı %" + fmt(t.wasteContent);
    var c := b + ". Hedef CMT " + fmt(t.targetCMT);
    IncludesEnding("Elimde ", fmt(t.grammage));
    IncludesEnding(a + " gsm HP Fluting var. Atık Oranı %", fmt(t.wasteContent));
    IncludesEnding(b + ". Hedef CMT ", fmt(t.targetCMT));
    IncludesPrefix(a, c + LightweightingTail, fmt(t.grammage));
    IncludesPrefix(b, c + LightweightingTail, fmt(t.wasteContent));
    IncludesPrefix(c, c + LightweightingTail, fmt(t.targetCMT));
    NonBlankEnding(c, LightweightingTail);
    c + LightweightingTail
  }

  /** The contamination prompt quotes the current waste content and trim width. */
  function WastePrompt(t: ProductionTelemetry, c: MachineConstants, fmt: real -> string): (r: string)
    ensures Includes(r, fmt(t.wasteContent)) && Includes(r, fmt(c.trimWidth))
    ensures Trim(r) != []
  {
    var a := "Atık kağıtta kirlilik %" + fmt(t.wasteContent);
    var b := a + WasteMiddle + fmt(c.trimWidth);
    IncludesEnding("Atık kağıtta kirlilik %", fmt(t.wasteContent));
    IncludesEnding(a + WasteMiddle, fmt(c.trimWidth));
    IncludesPrefix(a, b + " cm.", fmt(t.wasteContent));
    IncludesPrefix(b, b + " cm.", fmt(c.trimWidth));
    NonBlankEnding(b, " cm.");
    b + " cm."
  }

  /** The speed prompt quotes the current machine speed and efficiency. */
  function EfficiencyPrompt(t: ProductionTelemetry, c: MachineConstants, fmt: real -> string): (r: string)
    ensures Includes(r, fmt(t.machineSpeed)) && Includes(r, fmt(c.productionEfficiency))
    ensures Trim(r) != []
  {
    var a := "Makine hızı " + fmt(t.machineSpeed);
    var b := a + " m/dk. OEE %" + fmt(c.productionEfficiency);
    IncludesEnding("Makine hızı ", fmt(t.machineSpeed));
    IncludesEnding(a + " m/dk. OEE %", fmt(c.productionEfficiency));
    IncludesPrefix(a, b + EfficiencyTail, fmt(t.machineSpeed));
    IncludesPrefix(b, b + EfficiencyTail, fmt(c.productionEfficiency));
    NonBlankEnding(b, EfficiencyTail);
    b + EfficiencyTail
  }

  /**
   * The render condition of the chart: it is drawn under message `k` when
   * that is a model message with the same id as the last message and the
   * conversation holds more than two messages.
   */
  function ChartShownUnder(msgs: seq<ChatMessage>, k: int): (r: bool)
    requires 0 <= k < |msgs|
    ensures k == |msgs| - 1 ==> (r <==> msgs[k].role == Model && |msgs| > 2)
    ensures |msgs| <= 2 ==> !r
  {
    msgs[k].role == Model && msgs[k].id == msgs[|msgs| - 1].id && |msgs| > 2
  }

  predicate DistinctIds(msgs: seq<ChatMessage>) {
    forall a, b :: 0 <= a < b < |msgs| ==> msgs[a].id != msgs[b].id
  }

  /**
   * With distinct ids the chart sits under the last message alone, only
   * when that is a model reply and the conversation is past its first
   * exchange.
   */
  lemma ChartOnlyUnderLastReply(msgs: seq<ChatMessage>, k: int)
    requires DistinctIds(msgs) && 0 <= k < |msgs|
    ensures ChartShownUnder(msgs, k) <==> k == |msgs| - 1 && msgs[k].role == Model && |msgs| > 2
  {
    if k < |msgs| - 1 {
      assert msgs[k].id != msgs[|msgs| - 1].id;
    }
  }

  /** Ids are compared, not positions: two replies sharing an id both get the chart. */
  lemma SharedIdShowsChartTwice()
    ensures var msgs := [WelcomeMessage, ChatMessage("7", Model, "a"), ChatMessage("7", Model, "b")];
      ChartShownUnder(msgs, 1) && ChartShownUnder(msgs, 2)
  {
  }

  /** The state App.tsx keeps for one chat session. */
  class Session {
    var messages: seq<ChatMessage>
    var inputValue: string
    var isLoading: bool
    var simulationData: seq<ChartRow>
    var winningScenario: Option<WinningScenario>
    var hasHistoricalData: bool
    var telemetry: ProductionTelemetry
    var unitCosts: UnitCosts
    var machineConstants: MachineConstants

    /** The transcript only grows, so it always opens with the greeting. */
    ghost predicate Valid()
      reads this
    {
      |messages| >= 1 && messages[0] == WelcomeMessage
    }

    /** The initial `useState` values. */
    constructor ()
      ensures Valid()
      ensures messages == [WelcomeMessage] && inputValue == [] && !isLoading
      ensures simulationData == [] && winningScenario == None && !hasHistoricalData
      ensures telemetry == DefaultTelemetry && unitCosts == DefaultUnitCosts
      ensures machineConstants == DefaultMachineConstants
    {
      messages := [WelcomeMessage];
      inputValue := [];
      isLoading := false;
      simulationData := [];
      winningScenario := None;
      hasHistoricalData := false;
      telemetry := DefaultTelemetry;
      unitCosts := DefaultUnitCosts;
      machineConstants := DefaultMachineConstants;
    }

    /** The text area's `onChange`. */
    method EditInput(value: string)
      requires Valid()
      modifies this`inputValue
      ensures Valid() && inputValue == value
    {
      inputValue := value;
    }

    /**
     * `handleSendMessage` up to its `await`. A rejected submission changes
     * nothing and makes no gateway call; an accepted one appends the user
     * message with the untrimmed input, clears the input, sets the busy
     * flag and returns the gateway call, whose history is built from the
     * messages as they were before the user message was added.
     */
    method BeginTurn(userId: string) returns (request: Option<GatewayRequest>)
      requires Valid()
      modifies this`messages, this`inputValue, this`isLoading
      ensures Valid()
      ensures request.Some? <==> CanSubmit(old(inputValue), old(isLoading))
      ensures !CanSubmit(old(inputValue), old(isLoading)) ==>
        messages == old(messages) && inputValue == old(inputValue) && isLoading == old(isLoading)
      ensures CanSubmit(old(inputValue), old(isLoading)) ==>
        && messages == old(messages) + [ChatMessage(userId, User, old(inputValue))]
        && inputValue == []
        && isLoading
        && request.value == GatewayRequest(old(inputValue), telemetry, unitCosts, machineConstants,
                                           hasHistoricalData, History(old(messages)))
    {
      if !CanSubmit(inputValue, isLoading) {
        return None;
      }
      var userMsg := ChatMessage(userId, User, inputValue);
      var history := History(messages);
      messages := messages + [userMsg];
      inputValue := [];
      isLoading := true;
      request := Some(GatewayRequest(userMsg.content, telemetry, unitCosts, machineConstants,
                                     hasHistoricalData, history));
    }

    /**
     * `handleSendMessage` after its `await`: exactly one model message is
     * appended to the current transcript, and the busy flag ends false.
     * A parsed reply replaces the chart state and shows its report; a reply
     * without a span or with an unparsable one is shown verbatim; a thrown
     * gateway call gets the fixed apology. Only a parsed reply touches the
     * chart state.
     */
    method CompleteTurn(outcome: GatewayOutcome, parse: string -> Option<SimulationResponse>, replyId: string)
      requires Valid()
      modifies this`messages, this`isLoading, this`simulationData, this`winningScenario
      ensures Valid() && !isLoading
      ensures outcome.GatewayFailed? ==>
        && messages == old(messages) + [ChatMessage(replyId, Model, ApologyText)]
        && simulationData == old(simulationData) && winningScenario == old(winningScenario)
      ensures outcome.GatewayOk? && Interpret(outcome.text, parse).Parsed? ==>
        var response := Interpret(outcome.text, parse).response;
        && messages == old(messages) + [ChatMessage(replyId, Model, response.markdownReport)]
        && simulationData == response.chartData && winningScenario == response.winningScenario
      ensures outcome.GatewayOk? && !Interpret(outcome.text, parse).Parsed? ==>
        && messages == old(messages) + [ChatMessage(replyId, Model, outcome.text)]
        && simulationData == old(simulationData) && winningScenario == old(winningScenario)
    {
      match outcome {
        case GatewayFailed =>
          messages := messages + [ChatMessage(replyId, Model, ApologyText)];
        case GatewayOk(text) =>
          match Interpret(text, parse) {
            case Parsed(response) =>
              simulationData := response.chartData;
              winningScenario := response.winningScenario;
              messages := messages + [ChatMessage(replyId, Model, response.markdownReport)];
            case _ =>
              messages := messages + [ChatMessage(replyId, Model, text)];
          }
      }
      isLoading := false;
    }

    /** `handleDataUpload`: marks the historical data as loaded and announces it. */
    method DataUpload(noticeId: string)
      requires Valid()
      modifies this`messages, this`hasHistoricalData
      ensures Valid() && hasHistoricalData
      ensures messages == old(messages) + [ChatMessage(noticeId, Model, UploadNotice)]
    {
      hasHistoricalData := true;
      messages := messages + [ChatMessage(noticeId, Model, UploadNotice)];
    }

    /**
     * `runSimulation`: only the input box changes. The new input always
     * passes the blank test, so a later submission is accepted unless a
     * turn is in flight.
     */
    method RunSimulation(kind: SimulationKind, fmt: real -> string)
      requires Valid()
      modifies this`inputValue
      ensures Valid()
      ensures inputValue == SimulationPrompt(kind, telemetry, machineConstants, fmt)
      ensures CanSubmit(inputValue, isLoading) <==> !isLoading
    {
      inputValue := SimulationPrompt(kind, telemetry, machineConstants, fmt);
    }

    /**
     * `handleKeyDown`: Enter without Shift cancels the default newline and
     * submits; any other key does nothing.
     */
    method HandleKeyDown(key: string, shiftKey: bool, userId: string)
      returns (preventDefault: bool, request: Option<GatewayRequest>)
      requires Valid()
      modifies this`messages, this`inputValue, this`isLoading
      ensures Valid()
      ensures preventDefault == IsSendKey(key, shiftKey)
      ensures request.Some? <==> preventDefault && CanSubmit(old(inputValue), old(isLoading))
      ensures !request.Some? ==>
        messages == old(messages) && inputValue == old(inputValue) && isLoading == old(isLoading)
      ensures request.Some? ==>
        && messages == old(messages) + [ChatMessage(userId, User, old(inputValue))]
        && inputValue == [] && isLoading
        && request.value == GatewayRequest(old(inputValue), telemetry, unitCosts, machineConstants,
                                           hasHistoricalData, History(old(messages)))
    {
      preventDefault := IsSendKey(key, shiftKey);
      request := None;
      if preventDefault {
        request := BeginTurn(userId);
      }
    }
  }

  /**
   * A whole turn: the prompt "test" answered with a single well-formed
   * JSON object ends with the report as the last message and the chart
   * holding the one scenario of the reply.
   */
  method EndToEndExample() returns (last: ChatMessage, chart: seq<ChartRow>, winning: Option<WinningScenario>)
    ensures last == ChatMessage("2", Model, "ok")
    ensures chart == [ChartRow("Mevcut", 170.0, 100.0, 10.0)] && winning == None
  {
    var s := new Session();
    s.EditInput("test");
    assert Trim("test") != [];
    var request := s.BeginTurn("1");
    var inner := "\"markdownReport\":\"ok\",\"chartData\":[{\"name\":\"Mevcut\",\"CMT\":170,\"Maliyet\":100,\"Risk\":10}],\"winningScenario\":null";
    var reply := "{" + inner + "}";
    var response := SimulationResponse("ok", [ChartRow("Mevcut", 170.0, 100.0, 10.0)], None);
    WholeObjectIsExtracted(reply);
    s.CompleteTurn(GatewayOk(reply), span => if span == reply then Some(response) else None, "2");
    last := s.messages[|s.messages| - 1];
    chart := s.simulationData;
    winning := s.winningScenario;
  }

  /**
   * Single flight: a second submission while the first is pending is
   * refused and keeps its input; once the failed call has been answered
   * with the apology, that kept input is accepted.
   */
  method SingleFlightExample() returns (first: Option<GatewayRequest>, second: Option<GatewayRequest>,
                                         third: Option<GatewayRequest>, transcript: seq<ChatMessage>)
    ensures first.Some? && second.None? && third.Some?
    ensures third.value.userMessage == "b"
    ensures transcript == [WelcomeMessage, ChatMessage("1", User, "a"), ChatMessage("3", Model, ApologyText),
                           ChatMessage("4", User, "b")]
  {
    assert Trim("a") != [] && Trim("b") != [];
    var s := new Session();
    s.EditInput("a");
    first := s.BeginTurn("1");
    assert s.isLoading;
    s.EditInput("b");
    second := s.BeginTurn("2");
    assert s.inputValue == "b";
    s.CompleteTurn(GatewayFailed, span => None, "3");
    assert !s.isLoading && s.inputValue == "b";
    third := s.BeginTurn("4");
    transcript := s.messages;
  }
}
