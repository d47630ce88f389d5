/**
 * The chat API route (app/api/chat/route.ts): the same keyword chain as the
 * chatbot page, written out separately in the source and so here.
 */
module ChatRoute {
  import opened Common
  import Chatbot

  /** The reply `POST` puts in its JSON body for a message. */
  function Respond(message: string): (response: string)
    ensures Chatbot.MentionsBudget(message) ==> response == Chatbot.BudgetReply
    ensures !Chatbot.MentionsBudget(message) && Chatbot.MentionsInvest(message) ==> response == Chatbot.InvestReply
  {
    if Contains(Lower(message), "budget") then Chatbot.BudgetReply
    else if Contains(Lower(message), "invest") then Chatbot.InvestReply
    else if Contains(Lower(message), "credit score") then Chatbot.CreditScoreReply
    else if Contains(Lower(message), "debt") && Contains(Lower(message), "save") then Chatbot.DebtSaveReply
    else Chatbot.DefaultReply
  }

  /** The route and the chatbot page answer every text alike. */
  lemma RouteAgreesWithPage(message: string)
    ensures Respond(message) == Chatbot.Reply(message)
  {
  }

  /** Exactly one reply per message: the first matching rule's, or the default when none matches. */
  lemma RespondRules(message: string)
    ensures Respond(message) in {Chatbot.BudgetReply, Chatbot.InvestReply, Chatbot.CreditScoreReply,
                                 Chatbot.DebtSaveReply, Chatbot.DefaultReply}
    ensures Chatbot.MentionsBudget(message) ==> Respond(message) == Chatbot.BudgetReply
    ensures !Chatbot.MentionsBudget(message) && Chatbot.MentionsInvest(message) ==>
              Respond(message) == Chatbot.InvestReply
    ensures !Chatbot.MentionsBudget(message) && !Chatbot.MentionsInvest(message)
            && Chatbot.MentionsCreditScore(message) ==>
              Respond(message) == Chatbot.CreditScoreReply
    ensures !Chatbot.MentionsBudget(message) && !Chatbot.MentionsInvest(message)
            && !Chatbot.MentionsCreditScore(message) && Chatbot.MentionsDebtAndSave(message) ==>
              Respond(message) == Chatbot.DebtSaveReply
    ensures !Chatbot.MentionsBudget(message) && !Chatbot.MentionsInvest(message)
            && !Chatbot.MentionsCreditScore(message) && !Chatbot.MentionsDebtAndSave(message) ==>
              Respond(message) == Chatbot.DefaultReply
  {
    RouteAgreesWithPage(message);
  }

  /** The route, like the page, matches on the lowercased message. */
  lemma RespondIgnoresCase(message: string)
    ensures Respond(Lower(message)) == Respond(message)
  {
    LowerIdempotent(message);
  }
}
