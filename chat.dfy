/** The canned chat agent of the mock service layer
    (src/services/mockApi.ts:502-520): the input is lower-cased and matched
    against keyword groups in a fixed order; the first group that matches picks
    the reply. */
module Chat {
  import opened Text

  /** The four replies. */
  datatype Topic = MothersDay | ClientPortfolio | FunnelAnalysis | General

  const MothersDayReply: string :=
    "Detectei que o Dia das Mães está se aproximando! Baseado na análise dos nossos clientes, sugiro criar campanhas personalizadas: para a Clínica Dermatologia ABC, uma campanha de rejuvenescimento; para o Consultório Sorriso, promoção de clareamento dental; e para a Fisioterapia Movimento, conteúdo sobre cuidados posturais para mães. Posso implementar essas campanhas automaticamente?"
  const ClientPortfolioReply: string :=
    "Atualmente gerencio 3 clientes ativos: Clínica Dermatologia ABC (estética), Consultório Sorriso (odontologia) e Fisioterapia Movimento (fisioterapia). Cada cliente tem estratégias personalizadas baseadas em seu público-alvo e orçamento. Sobre qual cliente gostaria de saber mais?"
  const FunnelAnalysisReply: string :=
    "Analisando os funis de todos os clientes... A Dermatologia ABC tem 245 leads no topo do funil com 7% de conversão, o Consultório Sorriso tem 180 leads com melhor taxa de conversão (7%), e a Fisioterapia tem 95 leads mas com boa qualificação (8% de conversão). Sugiro otimizar o meio do funil para a Dermatologia ABC."
  const GeneralReply: string :=
    "Como especialista em marketing para múltiplos clientes da área da saúde, posso ajudar com estratégias personalizadas para cada consultório. Sobre qual cliente ou estratégia gostaria de conversar?"

  /** The topic the keyword tests pick, first match wins. */
  function Classify(input: string): Topic
  {
    var lower := ToLower(input);
    if Contains(lower, "dia das mães") || Contains(lower, "dia das maes") then MothersDay
    else if Contains(lower, "cliente") || Contains(lower, "clientes") then ClientPortfolio
    else if Contains(lower, "funil") || Contains(lower, "leads") then FunnelAnalysis
    else General
  }

  function Reply(t: Topic): (r: string)
  {
    match t
    case MothersDay => MothersDayReply
    case ClientPortfolio => ClientPortfolioReply
    case FunnelAnalysis => FunnelAnalysisReply
    case General => GeneralReply
  }

  /** `getAgentResponse(input)`: one of the four replies, and the reply tells
      which keyword group matched. */
  function GetAgentResponse(input: string): (r: string)
    ensures r in {MothersDayReply, ClientPortfolioReply, FunnelAnalysisReply, GeneralReply}
    ensures Classify(input) == MothersDay ==> r == MothersDayReply
    ensures Classify(input) == ClientPortfolio ==> r == ClientPortfolioReply
    ensures Classify(input) == FunnelAnalysis ==> r == FunnelAnalysisReply
    ensures Classify(input) == General ==> r == GeneralReply
  {
    Reply(Classify(input))
  }

  /** Different topics get different replies. */
  lemma RepliesDistinct(a: Topic, b: Topic)
    ensures Reply(a) == Reply(b) <==> a == b
  {
    if a != b {
      var ra, rb := Reply(a), Reply(b);
      assert ra[0] != rb[0] || ra[1] != rb[1] || |ra| != |rb|;
    }
  }

  /** "Mentions the phrase" in the sense of an occurrence at some position. */
  ghost predicate Mentions(s: string, phrase: string)
  {
    exists i :: OccursAt(s, phrase, i)
  }

  /** The classification in terms of occurrences in the lower-cased input. The
      test for "clientes" never decides anything: any input mentioning
      "clientes" already mentions "cliente". */
  lemma ClassifyByMentions(input: string)
    ensures var lower := ToLower(input);
            Classify(input) == MothersDay <==> Mentions(lower, "dia das mães") || Mentions(lower, "dia das maes")
    ensures var lower := ToLower(input);
            Classify(input) == ClientPortfolio <==>
              !(Mentions(lower, "dia das mães") || Mentions(lower, "dia das maes")) && Mentions(lower, "cliente")
    ensures var lower := ToLower(input);
            Classify(input) == FunnelAnalysis <==>
              && !(Mentions(lower, "dia das mães") || Mentions(lower, "dia das maes"))
              && !Mentions(lower, "cliente")
              && (Mentions(lower, "funil") || Mentions(lower, "leads"))
  {
    var lower := ToLower(input);
    if Contains(lower, "clientes") {
      assert "clientes" == "cliente" + "s";
      ContainsPrefixOfPattern(lower, "cliente", "s");
    }
  }

  /** The reply ignores ASCII letter case: an input and its lower-cased form
      get the same reply. */
  lemma ResponseIgnoresCase(input: string)
    ensures GetAgentResponse(ToLower(input)) == GetAgentResponse(input)
  {
    ToLowerIdempotent(input);
  }

  /** The empty message gets the general reply. */
  lemma EmptyInputGetsGeneralReply()
    ensures GetAgentResponse("") == GeneralReply
  {
    var lower := ToLower("");
    assert lower == "";
    MissingCharNotContained(lower, "dia das mães", 'd');
    MissingCharNotContained(lower, "dia das maes", 'd');
    MissingCharNotContained(lower, "cliente", 'c');
    MissingCharNotContained(lower, "clientes", 'c');
    MissingCharNotContained(lower, "funil", 'f');
    MissingCharNotContained(lower, "leads", 'l');
  }

  /** The seasonal reply wins over every other keyword in the same message,
      with or without the accent. */
  lemma MothersDayWins(input: string)
    requires Mentions(ToLower(input), "dia das mães") || Mentions(ToLower(input), "dia das maes")
    ensures GetAgentResponse(input) == MothersDayReply
  {
    ClassifyByMentions(input);
  }

  /** A message about clients gets the portfolio reply whatever else it says
      about funnels or leads, unless it names the holiday. */
  lemma ClientsBeforeLeads(input: string)
    requires !Mentions(ToLower(input), "dia das mães") && !Mentions(ToLower(input), "dia das maes")
    requires Mentions(ToLower(input), "cliente")
    ensures GetAgentResponse(input) == ClientPortfolioReply
  {
    ClassifyByMentions(input);
  }
}
