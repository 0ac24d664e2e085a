/** The bot panel: control buttons, the running count, executions per bot, type labels. */
module BotManagement {
  import opened Common
  import opened Seqs
  import opened Text
  import opened Automation
  import opened AutomationData

  datatype Control = Start | Pause | Stop

  /**
   * The control buttons a bot card shows, left to right: Start for an idle
   * or paused bot and Pause otherwise, then Stop for every bot.
   */
  function Controls(status: BotStatus): (cs: seq<Control>)
    ensures |cs| == 2 && cs[1] == Stop
    ensures Start in cs <==> status == Idle || status == Paused
    ensures Pause in cs <==> status == Running || status == BotError || status == Maintenance
  {
    [if status == Idle || status == Paused then Start else Pause, Stop]
  }

  /** The number of bots shown as active: those whose status is running. */
  function ActiveCount(bots: seq<RPABot>): (n: nat)
    ensures n <= |bots|
    ensures n == 0 <==> forall i :: 0 <= i < |bots| ==> bots[i].status != Running
  {
    |Filter(bots, (b: RPABot) => b.status == Running)|
  }

  /** With the shipped bots, one is active. */
  lemma MockActiveCount()
    ensures ActiveCount(MockRPABots) == 1
  {
    var running := (b: RPABot) => b.status == Running;
    var bots := MockRPABots;
    assert Filter(bots[3..], running) == [] by { assert bots[3..][1..] == []; }
    assert Filter(bots[2..], running) == [] by { assert bots[2..][1..] == bots[3..]; }
    assert Filter(bots[1..], running) == [] by { assert bots[1..][1..] == bots[2..]; }
  }

  /** The executions listed for the selected bot: exactly its own, in their original order. */
  function RecentExecutions(executions: seq<BotExecution>, botId: string): (r: seq<BotExecution>)
    ensures forall i :: 0 <= i < |r| ==> r[i].botId == botId && r[i] in executions
    ensures forall i :: 0 <= i < |executions| && executions[i].botId == botId ==> executions[i] in r
    ensures forall i :: 0 <= i < |executions| ==>
      multiset(r)[executions[i]] == if executions[i].botId == botId then multiset(executions)[executions[i]] else 0
    ensures IsSubsequence(r, executions)
  {
    Filter(executions, (e: BotExecution) => e.botId == botId)
  }

  /** The shipped data lists exec-001 for bot-001 and nothing for bot-003. */
  lemma MockRecentExecutions()
    ensures RecentExecutions(MockBotExecutions, "bot-001") == [MockBotExecutions[0]]
    ensures RecentExecutions(MockBotExecutions, "bot-003") == []
  {
    var execs := MockBotExecutions;
    assert execs[1..][1..] == [];
  }

  /**
   * The badge text of a bot type: the first underscore becomes a space, then
   * all is upper case. Every declared type has at most one underscore, so
   * the label has none.
   */
  function TypeLabel(t: BotType): (r: string)
    ensures |r| == |BotTypeText(t)|
    ensures forall i :: 0 <= i < |r| ==>
      r[i] == if BotTypeText(t)[i] == '_' then ' ' else UpperChar(BotTypeText(t)[i])
    ensures '_' !in r
  {
    BotTypesHaveOneUnderscore(t);
    ReplaceFirstSingle(BotTypeText(t), '_', ' ');
    Upper(ReplaceFirst(BotTypeText(t), '_', ' '))
  }

  /** Upper-casing neither adds nor removes underscores. */
  lemma UpperKeepsUnderscores(s: string)
    ensures '_' in Upper(s) <==> '_' in s
  {
    if '_' in Upper(s) {
      var i :| 0 <= i < |s| && Upper(s)[i] == '_';
      assert UpperChar(s[i]) == '_';
    }
    if '_' in s {
      var i :| 0 <= i < |s| && s[i] == '_';
      assert Upper(s)[i] == '_';
    }
  }

  /** Every declared bot type has at most one underscore. */
  lemma BotTypesHaveOneUnderscore(t: BotType)
    ensures AtMostOnce(BotTypeText(t), '_')
  {
  }

  datatype BotAction = StartAction | PauseAction | StopAction

  function ActionWord(a: BotAction): string
  {
    match a
    case StartAction => "start"
    case PauseAction => "pause"
    case StopAction => "stop"
  }

  /** The action words differ in their first three letters. */
  lemma ActionPrefixesDistinct(a1: BotAction, a2: BotAction)
    requires a1 != a2
    ensures ActionWord(a1)[..3] != ActionWord(a2)[..3]
  {
    assert ActionWord(StartAction)[..3] == "sta";
    assert ActionWord(PauseAction)[..3] == "pau";
    assert ActionWord(StopAction)[..3] == "sto";
  }

  datatype Tab = Overview | Logs | Config

  /** What the panel holds: the bots and executions it shows, and the UI selection. */
  datatype PanelState = PanelState(
    bots: seq<RPABot>,
    executions: seq<BotExecution>,
    selectedBot: Option<RPABot>,
    activeTab: Tab)

  /**
   * A click on Start, Pause or Stop: the only effect is a console line
   * `<action> bot <botId>`; the panel state is returned as it was.
   */
  function HandleBotAction(panel: PanelState, botId: string, action: BotAction): (r: (PanelState, string))
    ensures r.0 == panel
    ensures |r.1| == |ActionWord(action)| + 5 + |botId|
    ensures r.1[..|ActionWord(action)|] == ActionWord(action)
    ensures r.1[|ActionWord(action)|..|ActionWord(action)| + 5] == " bot "
    ensures r.1[|r.1| - |botId|..] == botId
  {
    (panel, ActionWord(action) + " bot " + botId)
  }

  /** The console line tells which action was asked for and for which bot. */
  lemma BotActionLogDistinguishes(panel: PanelState, b1: string, a1: BotAction, b2: string, a2: BotAction)
    requires HandleBotAction(panel, b1, a1).1 == HandleBotAction(panel, b2, a2).1
    ensures a1 == a2 && b1 == b2
  {
    var line := HandleBotAction(panel, b1, a1).1;
    assert line[..3] == ActionWord(a1)[..3] && line[..3] == ActionWord(a2)[..3];
    if a1 != a2 {
      ActionPrefixesDistinct(a1, a2);
    }
    assert |b1| == |b2|;
    assert line[|line| - |b1|..] == b1 && line[|line| - |b2|..] == b2;
  }
}
