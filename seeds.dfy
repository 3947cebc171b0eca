/** The hardcoded default collections that every read falls back to when the
    store holds nothing usable under its key (src/services/mockApi.ts). Only
    the fields the model carries are reproduced. */
module Seeds {
  import opened Base
  import opened Types

  const Clients: seq<Client> := [
    Client("client-1", "Clínica Dermatologia ABC", Aesthetics, 5000, Active),
    Client("client-2", "Consultório Odontológico Sorriso", Dentist, 3000, Active),
    Client("client-3", "Fisioterapia Movimento", Physiotherapy, 2000, Trial)
  ]

  const Campaigns: seq<Campaign> := [
    Campaign("1", Some("client-1"), "Campanha Verão - Tratamentos Faciais", "Ativa", "2025-05-01", "2025-06-30",
             Some(2500), 85, "Instagram + Facebook", Some(["Mulheres 25-40 anos"]), Agent),
    Campaign("2", Some("client-1"), "Promoção Limpeza de Pele", "Pausada", "2025-04-15", "2025-05-15",
             Some(800), 42, "Facebook", Some(["Mulheres 20-35 anos"]), Human),
    Campaign("3", Some("client-2"), "Campanha Ortodontia Invisível", "Ativa", "2025-05-10", "2025-07-10",
             Some(1800), 34, "Google Ads + Facebook", Some(["Adultos 25-45 anos"]), Agent),
    Campaign("4", Some("client-3"), "Pilates Clínico - Dores nas Costas", "Ativa", "2025-04-20", "2025-06-20",
             Some(1200), 28, "Instagram + Facebook", Some(["Adultos 30-60 anos"]), Agent)
  ]

  const Funnels: map<string, FunnelData> := map[
    "client-1" := FunnelData("client-1",
      [FunnelStage("Descoberta", 245, 100), FunnelStage("Interesse", 156, 64), FunnelStage("Consideração", 89, 36),
       FunnelStage("Decisão", 34, 14), FunnelStage("Conversão", 18, 7)],
      [Lead(1, "client-1", "Maria Silva", "Instagram", "Interesse", "2025-06-08"),
       Lead(2, "client-1", "Ana Costa", "Facebook", "Consideração", "2025-06-07")]),
    "client-2" := FunnelData("client-2",
      [FunnelStage("Descoberta", 180, 100), FunnelStage("Interesse", 120, 67), FunnelStage("Consideração", 65, 36),
       FunnelStage("Decisão", 25, 14), FunnelStage("Conversão", 12, 7)],
      [Lead(3, "client-2", "João Santos", "Google Ads", "Decisão", "2025-06-06")]),
    "client-3" := FunnelData("client-3",
      [FunnelStage("Descoberta", 95, 100), FunnelStage("Interesse", 68, 72), FunnelStage("Consideração", 42, 44),
       FunnelStage("Decisão", 18, 19), FunnelStage("Conversão", 8, 8)],
      [Lead(4, "client-3", "Pedro Lima", "Instagram", "Conversão", "2025-06-05")])
  ]

  const MothersDayActions: seq<ProposedAction> := [
    ProposedAction("action-1", CreateCampaign, "Campanha Dia das Mães - Clínica Dermatologia ABC",
      "Campanha focada em tratamentos de rejuvenescimento para presentear mães",
      Some(ActionParams(Some("client-1"), Some(1500), Some(["Instagram", "Facebook"]),
                        Some(["Filhos/filhas 25-45 anos", "Mulheres 45-65 anos"]))),
      Some(1500), Some("1 dia")),
    ProposedAction("action-2", CreateCampaign, "Campanha Dia das Mães - Consultório Sorriso",
      "Promoção especial de clareamento dental para mães",
      Some(ActionParams(Some("client-2"), Some(800), Some(["Facebook", "Google Ads"]),
                        Some(["Famílias", "Mulheres 35-55 anos"]))),
      Some(800), Some("1 dia")),
    ProposedAction("action-3", CreateContent, "Conteúdo Educativo - Cuidados com a Postura",
      "Posts sobre cuidados posturais para mães que trabalham",
      Some(ActionParams(Some("client-3"), None, Some(["Instagram", "Facebook"]), None)),
      Some(0), Some("2 horas"))
  ]

  const Notifications: seq<Notification> := [
    Notification("notif-mothers-day", Suggestion, "Oportunidade: Dia das Mães se aproximando",
                 "2025-06-10 08:00:00", None, Pending, Some(MothersDayActions)),
    Notification("notif-2", Warning, "Carga de trabalho desequilibrada - Cliente Dermatologia ABC",
                 "2025-06-09 17:00:00", Some("client-1"), Pending, None),
    Notification("notif-3", Info, "Novo lead qualificado - Consultório Sorriso",
                 "2025-06-10 09:30:00", Some("client-2"), Pending, None)
  ]

  const CalendarEvents: seq<CalendarEvent> := [
    CalendarEvent("1", "client-1", "Dicas de Skincare Matinal", "2025-06-10", "Instagram", "Agendado", "Post", Agent),
    CalendarEvent("2", "client-1", "Depoimento Cliente - Tratamento Acne", "2025-06-11", "Facebook", "Rascunho", "Story", Human),
    CalendarEvent("3", "client-2", "Dicas de Higiene Bucal", "2025-06-12", "Instagram", "Planejado", "Post", Agent)
  ]

  const KanbanBoards: seq<KanbanBoard> := [
    KanbanBoard("board-1", "Marketing Digital - Clínica Dermatologia ABC", Some("client-1"), [
      KanbanList("list-1", "A Fazer", [KanbanCard("card-1", "Criar conteúdo para Dia das Mães", Some("client-1"))]),
      KanbanList("list-2", "Em Andamento", [KanbanCard("card-2", "Otimizar campanha de verão", Some("client-1"))])]),
    KanbanBoard("board-2", "Marketing Digital - Consultório Sorriso", Some("client-2"), [
      KanbanList("list-3", "Planejamento", [KanbanCard("card-3", "Campanha ortodontia invisível", Some("client-2"))])])
  ]

  const Logs: seq<AgentLogEntry> := [
    AgentLogEntry("log-1", "2025-06-10 08:00:00", "Detecção de oportunidade sazonal: Dia das Mães",
      "Sistema detectou proximidade do Dia das Mães e analisou potencial de campanhas para todos os clientes.",
      2500, Cost(Some(800), Some(3)), LogSuccess, None, "notification"),
    AgentLogEntry("log-2", "2025-06-09 14:30:00", "Otimização de campanha - Dermatologia ABC",
      "Identificado baixo CTR (1.2%) na campanha \"Tratamentos Faciais\". Sugerindo ajustes na segmentação.",
      1200, Cost(Some(500), Some(2)), LogSuccess, Some("client-1"), "optimization"),
    AgentLogEntry("log-3", "2025-06-09 10:15:00", "Criação de conteúdo educativo - Consultório Sorriso",
      "Geradas 5 ideias de posts sobre higiene bucal baseadas nas preferências do cliente.",
      800, Cost(Some(300), None), LogSuccess, Some("client-2"), "content_generation"),
    AgentLogEntry("log-4", "2025-06-08 16:45:00", "Análise de leads - Fisioterapia Movimento",
      "Analisados 15 novos leads. Identificados 3 leads qualificados para pilates clínico.",
      600, Cost(Some(200), None), LogSuccess, Some("client-3"), "lead_management")
  ]

  /** The working memory's fixed text: context, goals and challenges. */
  const MemoryContext: string := "Gestão de Marketing para Múltiplos Clientes - Foco em Campanhas Sazonais"
  const MemoryGoals: seq<string> :=
    ["Criar campanhas do Dia das Mães para todos os clientes",
     "Otimizar funil de conversão da Clínica Dermatologia ABC",
     "Analisar performance das campanhas do Consultório Sorriso"]
  const MemoryChallenges: seq<string> :=
    ["Taxa de conversão baixa no meio do funil - Dermatologia ABC",
     "Necessidade de mais conteúdo educativo - Fisioterapia Movimento"]

  /** The long-term memory: preferences, history, learnings and client insights. */
  const LongTerm: LongTermMemory :=
    LongTermMemory(
      ["Notificações detalhadas sobre oportunidades sazonais",
       "Aprovação manual para campanhas acima de R$ 2.000",
       "Relatórios semanais por cliente"],
      ["Cartão \"Campanha Páscoa - Dermatologia ABC\" concluído em 2025-04-20",
       "Board \"Consultório Sorriso\" criado em 2025-03-10",
       "Campanha \"Ortodontia Invisível\" aprovada em 2025-05-15"],
      ["Campanhas sazonais têm 40% mais engajamento",
       "Clientes de estética respondem melhor a conteúdo visual",
       "Consultórios odontológicos preferem conteúdo educativo"],
      map[
        "client-1" := ["Público responde bem a antes/depois", "Melhor horário de postagem: 19h-21h",
                       "Instagram gera mais leads que Facebook"],
        "client-2" := ["Conteúdo educativo tem alta taxa de engajamento", "Famílias são o público principal",
                       "Google Ads converte melhor que redes sociais"],
        "client-3" := ["Público busca soluções para dores específicas", "Depoimentos de pacientes são muito eficazes",
                       "Instagram Stories funcionam bem para dicas rápidas"]])

  /** The default agent memory; only its list of active client names depends
      on the data, the rest is fixed text. */
  function Memory(activeClients: seq<string>): (m: AgentMemory)
    ensures m.workingMemory.activeClients == activeClients
  {
    AgentMemory(WorkingMemory(MemoryContext, MemoryGoals, MemoryChallenges, activeClients), LongTerm)
  }
}
