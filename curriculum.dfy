/** The Journey curriculum (backend/apps/journey/curriculum.py): three
    worlds of regular levels, each closed by a boss, and the lookup of a
    level or boss by its id. */
module Curriculum {
  import opened Common

  datatype Level = Level(id: string, title: string, topic: string)

  datatype Boss = Boss(id: string, title: string, description: string, topic: string, difficulty: string)

  datatype World = World(id: string, title: string, role: string, description: string, color: string,
                         levels: seq<Level>, boss: Boss)

  /** `SAGA_DATA` */
  const SagaData: seq<World> := [
    World("world_1", "Mundo 1: O Vale dos Fundamentos", "Junior",
      "Sobrevivência e Construção. O objetivo é fazer as coisas funcionarem.",
      "from-green-600 to-emerald-900",
      [
        Level("w1_l1", "O Despertar", "Computação Básica: CPU, Memória, Binário, Compilado vs Interpretado"),
        Level("w1_l2", "O Terminal", "Linux & OS: Bash, Permissões, Processos, Filesystem"),
        Level("w1_l3", "A Forja", "Lógica de Programação: Variáveis, Loops, Condicionais, Funções"),
        Level("w1_l4", "O Templo dos Objetos", "POO: Classes, Herança, Polimorfismo, Encapsulamento"),
        Level("w1_l5", "Os Pergaminhos", "SQL & Dados: Tabelas, Select, Join, ACID"),
        Level("w1_l6", "A Linha do Tempo", "Git: Commits, Branches, Merge, Pull Requests"),
        Level("w1_l7", "A Teia", "Web & HTTP: DNS, Request/Response, Status Codes"),
        Level("w1_l8", "O Portal", "APIs REST: JSON, Verbos HTTP, Endpoints"),
        Level("w1_l9", "A Caixa Mágica", "Docker: Containers, Imagens, Volumes, Dockerfile")
      ],
      Boss("boss_1", "BOSS: O Monólito de Pedra",
        "O Boss te ataca com erros de deploy e conflitos de merge. Defenda-se!",
        "Integração de Sistemas Junior: Debugging, Deploy simples, Git Conflicts",
        "hard")),
    World("world_2", "Mundo 2: A Cidadela da Qualidade", "Pleno",
      "Ordem e Eficiência. O objetivo é fazer o código limpo e escalável.",
      "from-blue-600 to-indigo-900",
      [
        Level("w2_l1", "A Biblioteca Oculta", "NoSQL & Cache: MongoDB, Redis, Teorema CAP"),
        Level("w2_l2", "O Jardim Zen", "Clean Code: Nomes significativos, Funções pequenas, Tratamento de Erro"),
        Level("w2_l3", "Os 5 Pilares", "SOLID Principles: SRP, OCP, LSP, ISP, DIP"),
        Level("w2_l4", "A Torre de Vigia", "Testes & QA: Unitários, Integração, TDD, Mocking"),
        Level("w2_l5", "O Arsenal", "Design Patterns: Factory, Singleton, Strategy, Observer"),
        Level("w2_l6", "A Oficina", "Refatoração de Código Legado: Técnicas seguras"),
        Level("w2_l7", "O Túnel de Vento", "Performance Backend: Indexação DB, N+1 problem, Async"),
        Level("w2_l8", "As Nuvens", "Cloud & CI/CD: AWS Basics, Pipelines, GitHub Actions")
      ],
      Boss("boss_2", "BOSS: O Espaguete Legado",
        "Um monstro feito de código ruim. Use Design Patterns para vencer.",
        "Arquitetura Pleno: Code Smells, Refactoring, Design Patterns em cenários reais",
        "hard")),
    World("world_3", "Mundo 3: O Nexus da Arquitetura", "Arquiteto",
      "Estratégia e Visão Macro. O objetivo é desenhar sistemas complexos.",
      "from-purple-600 to-fuchsia-900",
      [
        Level("w3_l1", "O Mapa Estelar", "Fundamentos da Arquitetura: RNF (Requisitos Não Funcionais), Trade-offs"),
        Level("w3_l2", "O Domínio", "DDD: Bounded Contexts, Entidades, Agregados, Value Objects"),
        Level("w3_l3", "As Camadas", "Clean Architecture & Hexagonal: Ports & Adapters"),
        Level("w3_l4", "A Metrópole", "Monolito Modular vs Distribuído: Organização de módulos"),
        Level("w3_l5", "A Frota Estelar", "Microservices: Decomposição, Comunicação gRPC/REST, Saga Pattern"),
        Level("w3_l6", "O Fluxo de Energia", "Event-Driven: Kafka, RabbitMQ, Consistência Eventual"),
        Level("w3_l7", "A Matéria Escura", "Serverless & Cloud Native: FaaS, Autoscaling, Observabilidade")
      ],
      Boss("boss_3", "BOSS: O Caos da Escala",
        "Uma simulação de Black Friday. O sistema está caindo. Salve-o!",
        "System Design Avançado: Scalability, Reliability, Circuit Breaker, Sharding",
        "hard"))
  ]

  /** The ids of the worlds' levels and bosses, in search order: each
      world's regular levels, then its boss. */
  function AllIds(worlds: seq<World>): seq<string>
  {
    if worlds == [] then [] else OwnIds(worlds[0]) + AllIds(worlds[1..])
  }

  function LevelIds(levels: seq<Level>): (r: seq<string>)
    ensures |r| == |levels| && forall i :: 0 <= i < |levels| ==> r[i] == levels[i].id
  {
    seq(|levels|, i requires 0 <= i < |levels| => levels[i].id)
  }

  /** What `get_level_data(level_id)` returns: a regular level and its world
      (`is_boss` False), a boss and its world (`is_boss` True), or
      `(None, None, None)`. */
  datatype LevelData = Regular(level: Level, world: World) | BossFight(boss: Boss, world: World) | NotFound

  /** The inner loop: the first level of `levels` with the id. */
  function FindLevel(levels: seq<Level>, id: string): (r: Option<Level>)
    ensures r.Some? ==> r.value in levels && r.value.id == id
    ensures r.None? <==> id !in LevelIds(levels)
  {
    if levels == [] then None
    else if levels[0].id == id then Some(levels[0])
    else
      assert LevelIds(levels) == [levels[0].id] + LevelIds(levels[1..]);
      FindLevel(levels[1..], id)
  }

  /** The search of `get_level_data` over `worlds`, in order, each world's
      regular levels before its boss. */
  function Lookup(worlds: seq<World>, id: string): (r: LevelData)
    ensures r.Regular? ==> r.world in worlds && r.level in r.world.levels && r.level.id == id
    ensures r.BossFight? ==> r.world in worlds && r.boss == r.world.boss && r.boss.id == id
    ensures r.NotFound? <==> id !in AllIds(worlds)
  {
    if worlds == [] then NotFound
    else
      var world := worlds[0];
      match FindLevel(world.levels, id)
      case Some(level) => Regular(level, world)
      case None =>
        if world.boss.id == id then BossFight(world.boss, world)
        else
          var r := Lookup(worlds[1..], id);
          assert r.Regular? || r.BossFight? ==> r.world in worlds;
          r
  }

  /** `get_level_data(level_id)`; a missing or non-string id never equals
      an id of the curriculum and is modelled by any string that is not one. */
  function GetLevelData(id: string): LevelData
  {
    Lookup(SagaData, id)
  }

  lemma DistinctAppend(a: seq<string>, b: seq<string>)
    requires Distinct(a + b)
    ensures Distinct(a) && Distinct(b) && forall x :: x in a ==> x !in b
  {
    forall i, j | 0 <= i < j < |b| ensures b[i] != b[j] {
      assert (a + b)[|a| + i] == b[i] && (a + b)[|a| + j] == b[j];
    }
    forall i, j | 0 <= i < |a| && 0 <= j < |b| ensures a[i] != b[j] {
      assert (a + b)[i] == a[i] && (a + b)[|a| + j] == b[j];
    }
    forall i, j | 0 <= i < j < |a| ensures a[i] != a[j] {
      assert (a + b)[i] == a[i] && (a + b)[j] == a[j];
    }
  }

  lemma FindLevelComplete(levels: seq<Level>, level: Level)
    requires Distinct(LevelIds(levels)) && level in levels
    ensures FindLevel(levels, level.id) == Some(level)
  {
    var r := FindLevel(levels, level.id);
    var i :| 0 <= i < |levels| && levels[i] == level;
    assert level.id in LevelIds(levels);
    var j :| 0 <= j < |levels| && levels[j] == r.value;
    assert LevelIds(levels)[i] == LevelIds(levels)[j];
  }

  /** When no id repeats, the lookup finds every level in its world and
      every boss with its world, whatever order the search takes. */
  lemma {:induction false} LookupComplete(worlds: seq<World>, world: World)
    requires Distinct(AllIds(worlds)) && world in worlds
    ensures forall level :: level in world.levels ==> Lookup(worlds, level.id) == Regular(level, world)
    ensures Lookup(worlds, world.boss.id) == BossFight(world.boss, world)
  {
    var first := worlds[0];
    var own := OwnIds(first);
    assert AllIds(worlds) == own + AllIds(worlds[1..]);
    DistinctAppend(own, AllIds(worlds[1..]));
    DistinctAppend(LevelIds(first.levels), [first.boss.id]);
    if world == first {
      forall level | level in world.levels ensures Lookup(worlds, level.id) == Regular(level, world) {
        FindLevelComplete(world.levels, level);
      }
      assert first.boss.id in own;
    } else {
      assert world in worlds[1..];
      LookupComplete(worlds[1..], world);
      forall level | level in world.levels ensures Lookup(worlds, level.id) == Regular(level, world) {
        IdsOfWorld(worlds[1..], world);
        assert level.id in LevelIds(world.levels);
        assert level.id !in own;
      }
      IdsOfWorld(worlds[1..], world);
      assert world.boss.id !in own;
    }
  }

  lemma {:induction false} IdsOfWorld(worlds: seq<World>, world: World)
    requires world in worlds
    ensures forall x :: x in LevelIds(world.levels) ==> x in AllIds(worlds)
    ensures world.boss.id in AllIds(worlds)
  {
    if worlds[0] != world {
      IdsOfWorld(worlds[1..], world);
    }
  }

  function OwnIds(world: World): seq<string>
  {
    LevelIds(world.levels) + [world.boss.id]
  }

  /** The ids of each world of `SAGA_DATA`, in search order. */
  const World1Ids: seq<string> := ["w1_l1", "w1_l2", "w1_l3", "w1_l4", "w1_l5", "w1_l6", "w1_l7", "w1_l8", "w1_l9", "boss_1"]
  const World2Ids: seq<string> := ["w2_l1", "w2_l2", "w2_l3", "w2_l4", "w2_l5", "w2_l6", "w2_l7", "w2_l8", "boss_2"]
  const World3Ids: seq<string> := ["w3_l1", "w3_l2", "w3_l3", "w3_l4", "w3_l5", "w3_l6", "w3_l7", "boss_3"]

  lemma SagaOwnIds()
    ensures OwnIds(SagaData[0]) == World1Ids
    ensures OwnIds(SagaData[1]) == World2Ids
    ensures OwnIds(SagaData[2]) == World3Ids
  {
  }

  /** Each world's ids are distinct and no id is in two worlds. */
  lemma WorldIdsDistinct()
    ensures Distinct(World1Ids) && Distinct(World2Ids) && Distinct(World3Ids)
    ensures forall x :: x in World1Ids ==> x !in World2Ids && x !in World3Ids
    ensures forall x :: x in World2Ids ==> x !in World3Ids
  {
  }

  lemma DistinctConcat(a: seq<string>, b: seq<string>)
    requires Distinct(a) && Distinct(b) && forall x :: x in a ==> x !in b
    ensures Distinct(a + b)
  {
    forall i, j | 0 <= i < j < |a + b| ensures (a + b)[i] != (a + b)[j] {
      if j < |a| {
        assert (a + b)[i] == a[i] && (a + b)[j] == a[j];
      } else if i >= |a| {
        assert (a + b)[i] == b[i - |a|] && (a + b)[j] == b[j - |a|];
      } else {
        assert (a + b)[i] == a[i] && (a + b)[j] == b[j - |a|];
        assert a[i] in a;
      }
    }
  }

  lemma AllIdsOfThree(w: seq<World>)
    requires |w| == 3
    ensures AllIds(w) == OwnIds(w[0]) + (OwnIds(w[1]) + OwnIds(w[2]))
  {
    assert AllIds(w[1..]) == OwnIds(w[1]) + AllIds(w[2..]);
    assert AllIds(w[2..]) == OwnIds(w[2]) + AllIds(w[3..]);
    assert w[3..] == [];
  }

  /** The ids of `SAGA_DATA`, world by world. */
  lemma SagaAllIds()
    ensures AllIds(SagaData) == World1Ids + (World2Ids + World3Ids)
  {
    AllIdsOfThree(SagaData);
    SagaOwnIds();
  }

  /** The 24 levels and 3 bosses of the curriculum have 27 distinct ids, so
      the lookup's answer does not depend on its search order. */
  lemma SagaIdsDistinct()
    ensures |AllIds(SagaData)| == 27 && Distinct(AllIds(SagaData))
  {
    SagaAllIds();
    WorldIdsDistinct();
    DistinctConcat(World2Ids, World3Ids);
    assert forall x :: x in World2Ids + World3Ids ==> x in World2Ids || x in World3Ids;
    DistinctConcat(World1Ids, World2Ids + World3Ids);
  }

  /** The curriculum has three worlds of 9, 8 and 7 levels, each closed by
      a "hard" boss. */
  lemma SagaShape()
    ensures |SagaData| == 3
    ensures |SagaData[0].levels| == 9 && |SagaData[1].levels| == 8 && |SagaData[2].levels| == 7
    ensures forall w :: w in SagaData ==> w.boss.difficulty == "hard"
  {
  }

  /** A regular level id gives that level, its world and `is_boss` False;
      a boss id gives the boss, its world and `is_boss` True; any other id
      gives nothing. */
  lemma GetLevelDataSpec(id: string)
    ensures forall world, level :: world in SagaData && level in world.levels && level.id == id ==>
      GetLevelData(id) == Regular(level, world)
    ensures forall world :: world in SagaData && world.boss.id == id ==>
      GetLevelData(id) == BossFight(world.boss, world)
    ensures GetLevelData(id).NotFound? <==> id !in AllIds(SagaData)
  {
    SagaIdsDistinct();
    forall world | world in SagaData {
      LookupComplete(SagaData, world);
    }
  }
}
