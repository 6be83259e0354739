/**
 What provisioning hands to the provider: the agent's environment and files. Every
 variable survives the shell on Hetzner, and on a sprite every file is in place.
 */
module VpsSpecs {
  import opened Prelude
  import opened TextLines
  import S = SpritesProvisioning
  import Q = ShellQuote

  const CONFIG_PATH := "/root/.openclaw/openclaw.json"
  const WORKSPACE := "/root/.openclaw/workspace"
  const TOKEN_VAR := "OPENCLAW_GATEWAY_TOKEN"

  /** The agent's row, as far as it shows here. */
  datatype AgentInfo = AgentInfo(id: string, name: string, token: string)

  datatype VpsSpec = VpsSpec(name: string, env: map<string, string>, files: seq<S.FileMount>)

  function ProxyUrl(agent: AgentInfo, proxyAddress: string): string {
    "https://" + agent.id + ":" + agent.token + "@" + proxyAddress
  }

  /** The gateway token and four names for the one proxy URL, which carries the agent's credentials. */
  predicate RightEnv(env: map<string, string>, agent: AgentInfo, proxyAddress: string) {
    && env.Keys == {"OPENCLAW_GATEWAY_TOKEN", "HTTP_PROXY", "HTTPS_PROXY", "http_proxy", "https_proxy"}
    && env["OPENCLAW_GATEWAY_TOKEN"] == agent.token
    && forall k :: k in env && k != "OPENCLAW_GATEWAY_TOKEN" ==> env[k] == ProxyUrl(agent, proxyAddress)
  }

  function WorkspaceFiles(agent: AgentInfo): seq<S.FileMount> {
    [S.FileMount(WORKSPACE + "/IDENTITY.md", "# Identity\n\nYou are " + agent.name + ", a Slopbox agent.\n"),
     S.FileMount(WORKSPACE + "/SOUL.md", "# Soul\n\nYou are a helpful assistant.\n"),
     S.FileMount(WORKSPACE + "/AGENTS.md", "# Agents\n\nNo sub-agents configured.\n")]
  }

  /** Three files in the workspace, of which the identity names the agent. */
  lemma WorkspacePaths(agent: AgentInfo)
    ensures var files := WorkspaceFiles(agent);
            && |files| == 3
            && files[0].path == "/root/.openclaw/workspace/IDENTITY.md"
            && files[0].content == "# Identity\n\nYou are " + agent.name + ", a Slopbox agent.\n"
            && files[1].path == "/root/.openclaw/workspace/SOUL.md"
            && files[2].path == "/root/.openclaw/workspace/AGENTS.md"
  {
  }

  /** provision_vps between the assignment and the provider call; config is the rendered OpenClaw config. */
  method BuildSpec(agent: AgentInfo, proxyAddress: string, config: string) returns (spec: VpsSpec)
    ensures spec.name == "agent-" + agent.id && RightEnv(spec.env, agent, proxyAddress)
    ensures spec.files == [S.FileMount("/root/.openclaw/openclaw.json", config)] + WorkspaceFiles(agent)
  {
    var env: map<string, string> := map[];
    env := env[TOKEN_VAR := agent.token];
    var proxyUrl := ProxyUrl(agent, proxyAddress);
    env := env["HTTP_PROXY" := proxyUrl];
    env := env["HTTPS_PROXY" := proxyUrl];
    env := env["http_proxy" := proxyUrl];
    env := env["https_proxy" := proxyUrl];
    var files := [S.FileMount(CONFIG_PATH, config)];
    files := files + WorkspaceFiles(agent);
    spec := VpsSpec("agent-" + agent.id, env, files);
  }

  /** No variable's name has a quote in it, so the shell reads every variable back, whatever its value. */
  lemma EnvSurvivesShell(env: map<string, string>, agent: AgentInfo, proxyAddress: string, k: string)
    requires RightEnv(env, agent, proxyAddress) && k in env
    ensures Q.Lex("echo " + Q.Quoted(k, env[k])) == Q.Words(["echo", Q.Assignment(k, env[k])])
  {
    assert Q.QUOTE !in TOKEN_VAR;
    Q.CommandReadsBackIff(k, env[k]);
  }

  /** A listing of the environment, in the order the hash map yields it. */
  ghost predicate Lists(listed: seq<(string, string)>, env: map<string, string>) {
    forall k, v :: (k, v) in listed <==> k in env && env[k] == v
  }

  lemma FileAmong(files: seq<S.FileMount>, i: nat)
    requires i < |files| && forall j :: i < j < |files| ==> files[j].path != files[i].path
    requires files[i].path != S.ENV_PATH
    ensures forall name, env :: var wanted := S.Wanted(S.Spec(name, env, files));
                                files[i].path in wanted && wanted[files[i].path] == files[i].content
  {
    S.LastRequestWins(files, i);
  }

  /**
   A sprite provisioned from such a spec has the config, the three workspace files and the
   env file with every variable, and the gateway starts with the env file sourced.
   */
  lemma SpriteHasAll(answers: S.Answers, n: nat, agent: AgentInfo, proxyAddress: string, config: string,
                     listed: seq<(string, string)>, env: map<string, string>)
    requires RightEnv(env, agent, proxyAddress) && Lists(listed, env)
    ensures var files := [S.FileMount(CONFIG_PATH, config)] + WorkspaceFiles(agent);
            var (log, outcome) := S.Transcript(answers, n, S.Spec("agent-" + agent.id, listed, files));
            outcome.Provisioned? ==>
              && (forall f :: f in files ==> f.path in S.FilesAfter(log) && S.FilesAfter(log)[f.path] == f.content)
              && S.ENV_PATH in S.FilesAfter(log) && S.FilesAfter(log)[S.ENV_PATH] == S.EnvContent(listed)
    ensures S.ServiceCommand(listed) == "source /etc/slopbox/env && exec openclaw gateway run"
  {
    hide S.Transcript, S.FilesAfter, S.Requested, S.EnvContent;
    assert (TOKEN_VAR, env[TOKEN_VAR]) in listed;
    var files := [S.FileMount(CONFIG_PATH, config)] + WorkspaceFiles(agent);
    S.FilesInPlace(answers, n, S.Spec("agent-" + agent.id, listed, files));
    PathsDiffer();
    forall f | f in files
      ensures var wanted := S.Wanted(S.Spec("agent-" + agent.id, listed, files));
              f.path in wanted && wanted[f.path] == f.content
    {
      var i :| 0 <= i < |files| && files[i] == f;
      FileAmong(files, i);
    }
  }

  lemma PathsDiffer()
    ensures CONFIG_PATH != S.ENV_PATH && CONFIG_PATH != WORKSPACE + "/IDENTITY.md"
    ensures CONFIG_PATH != WORKSPACE + "/SOUL.md" && CONFIG_PATH != WORKSPACE + "/AGENTS.md"
    ensures WORKSPACE + "/IDENTITY.md" != S.ENV_PATH && WORKSPACE + "/SOUL.md" != S.ENV_PATH
    ensures WORKSPACE + "/AGENTS.md" != S.ENV_PATH && WORKSPACE + "/SOUL.md" != WORKSPACE + "/AGENTS.md"
    ensures WORKSPACE + "/IDENTITY.md" != WORKSPACE + "/SOUL.md"
    ensures WORKSPACE + "/IDENTITY.md" != WORKSPACE + "/AGENTS.md"
  {
    assert CONFIG_PATH[1] == 'r' && WORKSPACE[1] == 'r' && S.ENV_PATH[1] == 'e';
    assert |CONFIG_PATH| == 29 && |WORKSPACE| == 25;
    assert (WORKSPACE + "/IDENTITY.md")[26] == 'I' && (WORKSPACE + "/SOUL.md")[26] == 'S';
    assert (WORKSPACE + "/AGENTS.md")[26] == 'A' && CONFIG_PATH[16] == 'o' && WORKSPACE[16] == 'w';
    assert (WORKSPACE + "/AGENTS.md")[16] == 'w' && (WORKSPACE + "/SOUL.md")[16] == 'w';
    assert (WORKSPACE + "/IDENTITY.md")[16] == 'w' && (WORKSPACE + "/IDENTITY.md")[1] == 'r';
    assert (WORKSPACE + "/SOUL.md")[1] == 'r' && (WORKSPACE + "/AGENTS.md")[1] == 'r';
  }

  /**
   Between the scheme and the proxy's address the URL carries the credentials, which the
   proxy splits at the first colon: it gets the agent's id and token exactly when the id
   has no colon, whatever the token.
   */
  lemma ProxyReadsCredentialsIff(agent: AgentInfo, proxyAddress: string) returns (credentials: string)
    ensures ProxyUrl(agent, proxyAddress) == "https://" + credentials + "@" + proxyAddress
    ensures SplitOnce(credentials, ':') == Some((agent.id, agent.token)) <==> ':' !in agent.id
  {
    credentials := agent.id + [':'] + agent.token;
    SplitOfJoined(agent.id, agent.token, ':');
    assert ProxyUrl(agent, proxyAddress) == "https://" + credentials + "@" + proxyAddress;
  }
}
