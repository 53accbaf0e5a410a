/**
 * `chat2bigModel`: the switch from a provider name to the adapter that
 * serves it. The dispatcher itself calls back nothing.
 */
module BigModel {
  import opened Wrappers
  import opened Callbacks
  import SparkAdapter = Spark
  import ErnieAdapter = ErnieBot
  import OpenAIAdapter = OpenAI

  /** The providers the switch has a case for. */
  datatype Provider = OpenAI | Spark | ERNIEBot | Tongyi

  /** The provider name a case matches. */
  function ProviderName(p: Provider): string {
    match p
    case OpenAI => "OpenAI"
    case Spark => "Spark"
    case ERNIEBot => "ERNIEBot"
    case Tongyi => "Tongyi"
  }

  /** The case a provider name selects; None when no case matches. */
  function Route(name: string): (r: Option<Provider>)
    ensures r.Some? ==> ProviderName(r.value) == name
    ensures r.None? <==> forall p: Provider :: ProviderName(p) != name
  {
    match name
    case "OpenAI" => Some(OpenAI)
    case "Spark" => Some(Spark)
    case "ERNIEBot" => Some(ERNIEBot)
    case "Tongyi" => Some(Tongyi)
    case _ => None
  }

  /** Every provider's own name selects that provider, and no other. */
  lemma RouteByName(p: Provider, q: Provider)
    ensures Route(ProviderName(p)) == Some(p)
    ensures ProviderName(p) == ProviderName(q) ==> p == q
  {
  }

  /** One adapter call: which adapter, with which option. */
  datatype Invocation<O> = Invocation(adapter: Provider, option: O)

  /** The adapter call the switch makes: at most one, with the option passed on untouched. */
  function Dispatch<O>(provider: string, option: O): (r: Option<Invocation<O>>)
    ensures r.None? <==> Route(provider).None?
    ensures r.Some? ==> r.value.option == option && ProviderName(r.value.adapter) == provider
  {
    match Route(provider)
    case None => None
    case Some(p) => Some(Invocation(p, option))
  }

  /**
   * What each adapter would observe if it were the one called: its option
   * and the answers of its transport. The Tongyi adapter's trace is taken
   * as given.
   */
  datatype Environment = Environment(
    openai: OpenAIAdapter.OpenAIOption, openaiBackend: OpenAIAdapter.Backend,
    spark: SparkAdapter.SparkOption, sparkDate: string, sparkCodec: SparkAdapter.Codec,
    sparkEvents: seq<SparkAdapter.SocketEvent>,
    ernie: ErnieAdapter.ErnieOption, ernieToken: ErnieAdapter.TokenResponse, ernieLiveAfterToken: bool,
    ernieEvents: seq<ErnieAdapter.StreamEvent>,
    tongyiTrace: seq<Callback>)

  /** The trace of one adapter, run in the given environment. */
  function AdapterTrace(p: Provider, env: Environment, sinks: Sinks): seq<Callback> {
    match p
    case OpenAI => OpenAIAdapter.Chat2OpenAI(env.openai, env.openaiBackend, sinks).trace
    case Spark =>
      SparkAdapter.Chat2Spark(env.spark, env.sparkDate, env.sparkCodec, sinks, env.sparkEvents).trace
    case ERNIEBot =>
      ErnieAdapter.Chat2ErnieBot(env.ernie, env.ernieToken, env.ernieLiveAfterToken, sinks, env.ernieEvents).trace
    case Tongyi => env.tongyiTrace
  }

  /** `chat2bigModel`: the callbacks of the one adapter the provider selects, or none at all. */
  function Chat2BigModel(provider: string, env: Environment, sinks: Sinks): (trace: seq<Callback>)
    ensures Route(provider).None? ==> trace == []
    ensures Route(provider).Some? ==> trace == AdapterTrace(Route(provider).value, env, sinks)
  {
    match Dispatch(provider, env)
    case None => []
    case Some(call) => AdapterTrace(call.adapter, call.option, sinks)
  }

  /** An unknown provider name runs no adapter and calls back nothing; it raises nothing either. */
  lemma UnknownProviderIsSilent(provider: string, env: Environment, sinks: Sinks)
    requires forall p: Provider :: ProviderName(p) != provider
    ensures Dispatch(provider, env).None?
    ensures Chat2BigModel(provider, env, sinks) == []
  {
  }

  /** Each provider name yields exactly the trace of that provider's adapter. */
  lemma KnownProviderRunsItsAdapter(p: Provider, env: Environment, sinks: Sinks)
    ensures Dispatch(ProviderName(p), env) == Some(Invocation(p, env))
    ensures Chat2BigModel(ProviderName(p), env, sinks) == AdapterTrace(p, env, sinks)
  {
    RouteByName(p, p);
  }
}
