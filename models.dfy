/**
 * The app's value types of Models/Models.swift: the enum tables with their
 * raw values and display names, the chat message record, and the guarded
 * percentage properties of budgets and goals. Double is modelled as real:
 * rounding is not modelled, only the zero guards.
 */
module Models {
  import opened Wrappers

  /** A point in time; the model only stores and copies it. */
  type Date = int

  // ---------------------------------------------------------------------
  // ChatTone
  // ---------------------------------------------------------------------

  datatype ChatTone = Supportive | Direct | Neutral {

    /** The Codable raw value. */
    function RawValue(): string {
      match this
      case Supportive => "supportive"
      case Direct => "direct"
      case Neutral => "neutral"
    }

    function DisplayName(): string {
      match this
      case Supportive => "Supportive"
      case Direct => "Direct"
      case Neutral => "Neutral"
    }
  }

  /** ChatTone.allCases. */
  const AllChatTones: seq<ChatTone> := [Supportive, Direct, Neutral]

  /** ChatTone(rawValue:): the case whose raw value is `raw`, if there is one. */
  function ChatToneFromRaw(raw: string): (t: Option<ChatTone>)
    ensures t.Some? ==> t.value.RawValue() == raw
    ensures t.None? <==> raw !in {"supportive", "direct", "neutral"}
  {
    if raw == "supportive" then Some(Supportive)
    else if raw == "direct" then Some(Direct)
    else if raw == "neutral" then Some(Neutral)
    else None
  }

  /** Decoding a tone's raw value gives the tone back, and the raw value and
      display name differ only in the capital first letter. */
  lemma ChatToneTable(t: ChatTone)
    ensures ChatToneFromRaw(t.RawValue()) == Some(t)
    ensures t in AllChatTones
    ensures |t.RawValue()| == |t.DisplayName()| && t.RawValue()[1..] == t.DisplayName()[1..]
    ensures t.DisplayName()[0] as int == t.RawValue()[0] as int - 32
  {
  }

  /** There are exactly three tones. */
  lemma ChatToneCount()
    ensures |AllChatTones| == 3
    ensures forall i, j :: 0 <= i < j < |AllChatTones| ==> AllChatTones[i] != AllChatTones[j]
  {
  }

  // ---------------------------------------------------------------------
  // GoalCategory
  // ---------------------------------------------------------------------

  datatype GoalCategory = Emergency | Vacation | Purchase | DebtPayoff | Investment | Other {

    /** The Swift case name, for comparing with the raw value. */
    function CaseName(): string {
      match this
      case Emergency => "emergency"
      case Vacation => "vacation"
      case Purchase => "purchase"
      case DebtPayoff => "debtPayoff"
      case Investment => "investment"
      case Other => "other"
    }

    /** The Codable raw value. */
    function RawValue(): string {
      match this
      case DebtPayoff => "debt_payoff"
      case _ => CaseName()
    }

    function DisplayName(): string {
      match this
      case Emergency => "Emergency Fund"
      case Vacation => "Vacation"
      case Purchase => "Major Purchase"
      case DebtPayoff => "Debt Payoff"
      case Investment => "Investment"
      case Other => "Other"
    }
  }

  /** GoalCategory.allCases. */
  const AllGoalCategories: seq<GoalCategory> := [Emergency, Vacation, Purchase, DebtPayoff, Investment, Other]

  /** GoalCategory(rawValue:). */
  function GoalCategoryFromRaw(raw: string): (c: Option<GoalCategory>)
    ensures c.Some? ==> c.value.RawValue() == raw
    ensures c.None? <==> forall g :: g in AllGoalCategories ==> g.RawValue() != raw
  {
    if raw == "emergency" then Some(Emergency)
    else if raw == "vacation" then Some(Vacation)
    else if raw == "purchase" then Some(Purchase)
    else if raw == "debt_payoff" then Some(DebtPayoff)
    else if raw == "investment" then Some(Investment)
    else if raw == "other" then Some(Other)
    else None
  }

  /** Every raw value is the case name except debtPayoff's, and decoding a raw
      value gives its case back. */
  lemma GoalCategoryRawValues(c: GoalCategory)
    ensures c.RawValue() == c.CaseName() <==> c != DebtPayoff
    ensures GoalCategoryFromRaw(c.RawValue()) == Some(c)
    ensures c in AllGoalCategories
  {
  }

  /** The six display names are pairwise distinct. */
  lemma GoalDisplayNamesDistinct(a: GoalCategory, b: GoalCategory)
    requires a.DisplayName() == b.DisplayName()
    ensures a == b
  {
  }

  // ---------------------------------------------------------------------
  // ChatMessage
  // ---------------------------------------------------------------------

  datatype MessageSender = User | Ai

  datatype ChatMessage = ChatMessage(
    id: string,
    content: string,
    sender: MessageSender,
    timestamp: Date,
    isStreaming: bool)

  /** ChatMessage.init. The Swift defaults for `id` (a fresh UUID) and
      `timestamp` (the current date) come from the caller. */
  function NewChatMessage(id: string, content: string, sender: MessageSender, timestamp: Date,
                          isStreaming: bool := false): (m: ChatMessage)
    ensures m.id == id && m.content == content && m.sender == sender
    ensures m.timestamp == timestamp && m.isStreaming == isStreaming
  {
    ChatMessage(id, content, sender, timestamp, isStreaming)
  }

  /** Without the last argument a message is not streaming. */
  lemma NewChatMessageNotStreaming(id: string, content: string, sender: MessageSender, timestamp: Date)
    ensures !NewChatMessage(id, content, sender, timestamp).isStreaming
  {
  }

  // ---------------------------------------------------------------------
  // Budgets, goals, transactions
  // ---------------------------------------------------------------------

  datatype BudgetPeriod = Weekly | Biweekly | Monthly | Yearly

  datatype Budget = Budget(
    id: string,
    userId: string,
    category: string,
    allocatedAmount: real,
    spentAmount: real,
    period: BudgetPeriod,
    startDate: Date,
    endDate: Date)

  /** remainingAmount: what is left of the allocation, negative when overspent. */
  function RemainingAmount(b: Budget): (r: real)
    ensures r + b.spentAmount == b.allocatedAmount
    ensures r < 0.0 <==> b.spentAmount > b.allocatedAmount
  {
    b.allocatedAmount - b.spentAmount
  }

  /** percentageUsed: 0 without a positive allocation, else spent as a percentage of it. */
  function PercentageUsed(b: Budget): (p: real)
    ensures b.allocatedAmount <= 0.0 ==> p == 0.0
    ensures b.allocatedAmount > 0.0 ==> p * b.allocatedAmount == b.spentAmount * 100.0
  {
    if b.allocatedAmount > 0.0 then (b.spentAmount / b.allocatedAmount) * 100.0 else 0.0
  }

  /** Within a positive allocation the percentage lies between 0 and 100, and
      it passes 100 exactly when the budget is overspent. */
  lemma PercentageUsedBounds(b: Budget)
    requires b.allocatedAmount > 0.0 && b.spentAmount >= 0.0
    ensures 0.0 <= PercentageUsed(b)
    ensures PercentageUsed(b) <= 100.0 <==> RemainingAmount(b) >= 0.0
  {
    var p := PercentageUsed(b);
    assert p * b.allocatedAmount == b.spentAmount * 100.0;
    if p > 100.0 {
      assert p * b.allocatedAmount > 100.0 * b.allocatedAmount;
      assert b.spentAmount * 100.0 > b.allocatedAmount * 100.0;
    } else {
      assert p * b.allocatedAmount <= 100.0 * b.allocatedAmount;
      assert b.spentAmount * 100.0 <= b.allocatedAmount * 100.0;
    }
  }

  datatype FinancialGoal = FinancialGoal(
    id: string,
    userId: string,
    name: string,
    targetAmount: real,
    currentAmount: real,
    targetDate: Option<Date>,
    category: GoalCategory,
    createdAt: Date)

  /** progress: 0 without a positive target, else the saved amount as a percentage of it. */
  function Progress(g: FinancialGoal): (p: real)
    ensures g.targetAmount <= 0.0 ==> p == 0.0
    ensures g.targetAmount > 0.0 ==> p * g.targetAmount == g.currentAmount * 100.0
  {
    if g.targetAmount > 0.0 then (g.currentAmount / g.targetAmount) * 100.0 else 0.0
  }

  /** A goal is at 100 percent exactly when the saved amount reaches the target. */
  lemma ProgressComplete(g: FinancialGoal)
    requires g.targetAmount > 0.0
    ensures Progress(g) >= 100.0 <==> g.currentAmount >= g.targetAmount
  {
    var p := Progress(g);
    if p >= 100.0 {
      assert p * g.targetAmount >= 100.0 * g.targetAmount;
      assert g.currentAmount * 100.0 >= g.targetAmount * 100.0;
    } else {
      assert p * g.targetAmount < 100.0 * g.targetAmount;
      assert g.currentAmount * 100.0 < g.targetAmount * 100.0;
    }
  }

  datatype TransactionType = Income | Expense | Transfer

  datatype Transaction = Transaction(
    id: string,
    accountId: string,
    amount: real,
    name: string,
    merchantName: Option<string>,
    category: seq<string>,
    date: Date,
    pending: bool,
    transactionType: Option<TransactionType>)
}
