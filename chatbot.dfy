/**
 * The chatbot page (app/chatbot/page.tsx): a canned reply chosen by
 * case-insensitive keyword matching, and the message list a send extends.
 * The 1.5-second reply delay is an immediate step here.
 */
module Chatbot {
  import opened Common

  const BudgetReply: string :=
    "Creating a budget is a great first step! Start by tracking all your income and expenses for a month. Then, categorize your spending and look for areas to cut back. The 50/30/20 rule is a good guideline: 50% for needs, 30% for wants, and 20% for savings and debt repayment."
  const InvestReply: string :=
    "For beginners, I recommend starting with a retirement account like a 401(k) or IRA. Then consider low-cost index funds which provide diversification. Remember to only invest money you won't need in the short term, and consider your risk tolerance when choosing investments."
  const CreditScoreReply: string :=
    "To improve your credit score: 1) Pay all bills on time, 2) Keep credit card balances below 30% of your limit, 3) Don't close old accounts, 4) Limit applications for new credit, and 5) Regularly check your credit report for errors."
  const DebtSaveReply: string :=
    "It's often best to do both! First, build a small emergency fund ($1,000), then focus on high-interest debt (like credit cards), while still contributing to retirement if your employer matches. Once high-interest debt is paid, build your emergency fund to 3-6 months of expenses while tackling lower-interest debt."
  const DefaultReply: string :=
    "That's a great question about personal finance. While I'm still learning, I'd recommend checking out our resources section for more detailed information on this topic. Would you like me to help with something else?"

  const Greeting: string := "Hi there! I'm Finova's AI assistant. How can I help with your financial questions today?"

  const PresetQuestions: seq<string> := [
    "How can I create a budget?",
    "What's the best way to start investing?",
    "How do I improve my credit score?",
    "Should I pay off debt or save first?"
  ]

  /** The keyword tests, on the lowercased text. */
  predicate MentionsBudget(content: string) { Contains(Lower(content), "budget") }
  predicate MentionsInvest(content: string) { Contains(Lower(content), "invest") }
  predicate MentionsCreditScore(content: string) { Contains(Lower(content), "credit score") }
  predicate MentionsDebtAndSave(content: string)
  {
    Contains(Lower(content), "debt") && Contains(Lower(content), "save")
  }

  /** Which canned reply a text gets. */
  datatype Topic = BudgetTopic | InvestTopic | CreditScoreTopic | DebtSaveTopic | General

  /** The reply chain: the first keyword rule that matches wins. */
  function Classify(content: string): (topic: Topic)
    ensures topic == BudgetTopic <==> MentionsBudget(content)
    ensures topic == General ==>
              !MentionsBudget(content) && !MentionsInvest(content) && !MentionsCreditScore(content)
              && !MentionsDebtAndSave(content)
  {
    var lower := Lower(content);
    if Contains(lower, "budget") then BudgetTopic
    else if Contains(lower, "invest") then InvestTopic
    else if Contains(lower, "credit score") then CreditScoreTopic
    else if Contains(lower, "debt") && Contains(lower, "save") then DebtSaveTopic
    else General
  }

  function ReplyText(topic: Topic): string
  {
    match topic
    case BudgetTopic => BudgetReply
    case InvestTopic => InvestReply
    case CreditScoreTopic => CreditScoreReply
    case DebtSaveTopic => DebtSaveReply
    case General => DefaultReply
  }

  /** The reply a text gets: exactly one of the five canned answers. */
  function Reply(content: string): (r: string)
    ensures r in {BudgetReply, InvestReply, CreditScoreReply, DebtSaveReply, DefaultReply}
    ensures r == ReplyText(Classify(content))
  {
    ReplyText(Classify(content))
  }

  /** Each topic is chosen exactly when its rule matches and no earlier rule does. */
  lemma ClassifyRules(content: string)
    ensures Classify(content) == BudgetTopic <==> MentionsBudget(content)
    ensures Classify(content) == InvestTopic <==> !MentionsBudget(content) && MentionsInvest(content)
    ensures Classify(content) == CreditScoreTopic <==>
              !MentionsBudget(content) && !MentionsInvest(content) && MentionsCreditScore(content)
    ensures Classify(content) == DebtSaveTopic <==>
              !MentionsBudget(content) && !MentionsInvest(content) && !MentionsCreditScore(content)
              && MentionsDebtAndSave(content)
    ensures Classify(content) == General <==>
              !MentionsBudget(content) && !MentionsInvest(content) && !MentionsCreditScore(content)
              && !MentionsDebtAndSave(content)
  {
  }

  /** Matching ignores ASCII case: the lowercased text gets the same reply. */
  lemma ReplyIgnoresCase(content: string)
    ensures Classify(Lower(content)) == Classify(content)
    ensures Reply(Lower(content)) == Reply(content)
  {
    LowerIdempotent(content);
  }

  /** Texts that agree after lowercasing get the same reply. */
  lemma SameLowerSameReply(a: string, b: string)
    requires Lower(a) == Lower(b)
    ensures Classify(a) == Classify(b)
  {
  }

  /** The first preset question is about budgets. */
  lemma PresetBudget()
    ensures Classify(PresetQuestions[0]) == BudgetTopic
  {
    var q := PresetQuestions[0];
    assert Lower(q)[19..25] == "budget";
    assert OccursAt(Lower(q), "budget", 19);
  }

  /** The second preset question is about investing; it has no 'u', so no "budget". */
  lemma PresetInvest()
    ensures Classify(PresetQuestions[1]) == InvestTopic
  {
    InvestKeywords(PresetQuestions[1]);
  }

  lemma InvestKeywords(q: string)
    requires q == "What's the best way to start investing?"
    ensures !MentionsBudget(q) && MentionsInvest(q)
  {
    NoBudgetInInvestQuestion(q);
    InvestAt29(q);
  }

  lemma NoBudgetInInvestQuestion(q: string)
    requires q == "What's the best way to start investing?"
    ensures !MentionsBudget(q)
  {
    assert 'u' !in q && 'U' !in q;
    AbsentLetter(q, "budget", 1, 'u', 'U');
  }

  lemma InvestAt29(q: string)
    requires q == "What's the best way to start investing?"
    ensures MentionsInvest(q)
  {
    assert Lower(q)[29..35] == "invest";
    assert OccursAt(Lower(q), "invest", 29);
  }

  /** The third preset question is about credit scores; it has no 'b' and no 'n'. */
  lemma PresetCreditScore()
    ensures Classify(PresetQuestions[2]) == CreditScoreTopic
  {
    CreditScoreKeywords(PresetQuestions[2]);
  }

  lemma CreditScoreKeywords(q: string)
    requires q == "How do I improve my credit score?"
    ensures !MentionsBudget(q) && !MentionsInvest(q) && MentionsCreditScore(q)
  {
    NoBudgetInCreditQuestion(q);
    assert 'n' !in q && 'N' !in q;
    NoInvestWithoutN(q);
    CreditScoreAt20(q);
  }

  lemma NoBudgetInCreditQuestion(q: string)
    requires q == "How do I improve my credit score?"
    ensures !MentionsBudget(q)
  {
    assert 'b' !in q && 'B' !in q;
    AbsentLetter(q, "budget", 0, 'b', 'B');
  }

  /** A text without the letter n cannot mention investing. */
  lemma NoInvestWithoutN(q: string)
    requires 'n' !in q && 'N' !in q
    ensures !MentionsInvest(q)
  {
    AbsentLetter(q, "invest", 1, 'n', 'N');
  }

  lemma CreditScoreAt20(q: string)
    requires q == "How do I improve my credit score?"
    ensures MentionsCreditScore(q)
  {
    assert Lower(q)[20..32] == "credit score";
    assert OccursAt(Lower(q), "credit score", 20);
  }

  /** The fourth preset question is about debt and saving; it has no 'g', 'n' or 'c'. */
  lemma PresetDebtSave()
    ensures Classify(PresetQuestions[3]) == DebtSaveTopic
  {
    DebtSaveKeywords(PresetQuestions[3]);
  }

  lemma DebtSaveKeywords(q: string)
    requires q == "Should I pay off debt or save first?"
    ensures !MentionsBudget(q) && !MentionsInvest(q) && !MentionsCreditScore(q) && MentionsDebtAndSave(q)
  {
    NoBudgetInDebtQuestion(q);
    assert 'n' !in q && 'N' !in q;
    NoInvestWithoutN(q);
    NoCreditScoreInDebtQuestion(q);
    DebtAndSaveIn(q);
  }

  lemma NoBudgetInDebtQuestion(q: string)
    requires q == "Should I pay off debt or save first?"
    ensures !MentionsBudget(q)
  {
    assert 'g' !in q && 'G' !in q;
    AbsentLetter(q, "budget", 3, 'g', 'G');
  }

  lemma NoCreditScoreInDebtQuestion(q: string)
    requires q == "Should I pay off debt or save first?"
    ensures !MentionsCreditScore(q)
  {
    assert 'c' !in q && 'C' !in q;
    AbsentLetter(q, "credit score", 0, 'c', 'C');
  }

  lemma DebtAndSaveIn(q: string)
    requires q == "Should I pay off debt or save first?"
    ensures MentionsDebtAndSave(q)
  {
    assert Lower(q)[17..21] == "debt";
    assert OccursAt(Lower(q), "debt", 17);
    assert Lower(q)[25..29] == "save";
    assert OccursAt(Lower(q), "save", 25);
  }

  datatype Sender = User | Bot

  /** A chat message; ids and timestamps are the `Date.now()` millisecond counts. */
  datatype Message = Message(id: int, content: string, sender: Sender, timestamp: int)

  class ChatbotPage {
    var messages: seq<Message>
    var input: string
    var isLoading: bool

    constructor (now: int)
      ensures messages == [Message(1, Greeting, Bot, now)] && input == "" && !isLoading
    {
      messages := [Message(1, Greeting, Bot, now)];
      input := "";
      isLoading := false;
    }

    /**
     * `handleSendMessage`, with the clock read when the message is sent
     * (sentAt) and when the delayed reply is produced (repliedAt).
     */
    method HandleSendMessage(content: string, sentAt: int, repliedAt: int)
      modifies this
      ensures IsBlank(content) ==> messages == old(messages) && input == old(input) && isLoading == old(isLoading)
      ensures !IsBlank(content) ==>
                && messages == old(messages) + [Message(sentAt, content, User, sentAt),
                                                Message(repliedAt + 1, Reply(content), Bot, repliedAt)]
                && input == "" && !isLoading
    {
      if IsBlank(content) {
        return;
      }
      var userMessage := Message(sentAt, content, User, sentAt);
      messages := messages + [userMessage];
      input := "";
      isLoading := true;

      var response := Reply(content);
      var botMessage := Message(repliedAt + 1, response, Bot, repliedAt);
      messages := messages + [botMessage];
      isLoading := false;
    }

    /** The send button: sends whatever is in the input box. */
    method SendInput(sentAt: int, repliedAt: int)
      modifies this
      ensures IsBlank(old(input)) ==> messages == old(messages) && input == old(input) && isLoading == old(isLoading)
      ensures !IsBlank(old(input)) ==>
                && messages == old(messages) + [Message(sentAt, old(input), User, sentAt),
                                                Message(repliedAt + 1, Reply(old(input)), Bot, repliedAt)]
                && input == "" && !isLoading
    {
      HandleSendMessage(input, sentAt, repliedAt);
    }
  }
}
