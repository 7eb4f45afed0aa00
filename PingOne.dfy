/**
 * The shared PingOne configuration both PingOne clients build their URI from, and the
 * access token they send. The configuration lookup and the token utility are not part of this model.
 */
module PingOne {
  import opened Http

  /** TNTPPingOneConfig as the clients use it: the region's domain suffix and the environment id. */
  datatype PingOneConfig = PingOneConfig(domainSuffix: string, environmentId: string)

  /** An AccessToken object; `rendering` is what string concatenation makes of it. */
  datatype AccessToken = AccessToken(rendering: string)

  const BaseUrl := "https://api.pingone"

  /** The decision endpoint of an environment, composed by concatenation. */
  function DecisionEndpointUri(config: PingOneConfig, decisionEndpointId: string): string {
    BaseUrl + config.domainSuffix + "/v1/environments/" + config.environmentId
      + "/decisionEndpoints/" + decisionEndpointId
  }

  /** The URI written as '/'-joins of its segments. */
  lemma DecisionEndpointUriAsJoins(config: PingOneConfig, decisionEndpointId: string)
    ensures DecisionEndpointUri(config, decisionEndpointId)
         == "https:" + "/" + ("" + "/" + (("api.pingone" + config.domainSuffix) + "/" + ("v1" + "/" + ("environments"
              + "/" + (config.environmentId + "/" + ("decisionEndpoints" + "/" + decisionEndpointId))))))
  {
    var sfx, env, id := config.domainSuffix, config.environmentId, decisionEndpointId;
    var host := "api.pingone" + sfx;
    var t4 := "decisionEndpoints" + "/" + id;
    var t3 := env + "/" + t4;
    var t2 := "environments" + "/" + t3;
    var t1 := "v1" + "/" + t2;
    var w := host + "/" + t1;
    var q := BaseUrl + sfx + "/v1/environments/";
    LiteralPieces();
    // the last two pieces: "/decisionEndpoints/" + id is "/" + t4
    Assoc(q + env, "/decisionEndpoints/", id);
    Assoc("/", "decisionEndpoints" + "/", id);
    Assoc(q, env, "/" + t4);
    Assoc(env, "/", t4);
    assert DecisionEndpointUri(config, id) == q + t3;
    // "/v1/environments/" + t3 is "/" + t1
    Assoc(BaseUrl + sfx, "/v1/environments/", t3);
    Assoc("/" + ("v1" + "/"), "environments" + "/", t3);
    Assoc("/", "v1" + "/", t2);
    assert DecisionEndpointUri(config, id) == BaseUrl + sfx + ("/" + t1);
    // the base URL splits into "https:", "" and the host's fixed part
    Assoc("https:" + "/" + ("" + "/"), "api.pingone", sfx);
    Assoc("https:" + "/" + ("" + "/"), host, "/" + t1);
    Assoc(host, "/", t1);
    Assoc("https:" + "/", "" + "/", w);
  }

  /** The fixed pieces of the URI, split at their '/'s. */
  lemma LiteralPieces()
    ensures "/decisionEndpoints/" == "/" + ("decisionEndpoints" + "/")
    ensures "/v1/environments/" == "/" + ("v1" + "/") + ("environments" + "/")
    ensures BaseUrl == "https:" + "/" + ("" + "/") + "api.pingone"
  {
  }

  /** A text without '/' is the first segment of its '/'-join with anything. */
  lemma SegmentsOfPlainJoin(a: string, b: string)
    requires '/' !in a
    ensures Segments(a + "/" + b) == [a] + Segments(b)
  {
    SegmentsOfJoin(a, b);
    SegmentsOfPlain(a);
  }

  /**
   * When none of the three inputs contains '/', the URI's path segments are the fixed ones
   * with the environment id and the decision endpoint id in their places, so both ids can
   * be read back from the URI.
   */
  lemma DecisionEndpointUriSegments(config: PingOneConfig, decisionEndpointId: string)
    requires '/' !in config.domainSuffix && '/' !in config.environmentId && '/' !in decisionEndpointId
    ensures Segments(DecisionEndpointUri(config, decisionEndpointId))
         == ["https:", "", "api.pingone" + config.domainSuffix, "v1", "environments",
             config.environmentId, "decisionEndpoints", decisionEndpointId]
  {
    var host := "api.pingone" + config.domainSuffix;
    assert '/' !in host by {
      forall i | 0 <= i < |host| ensures host[i] != '/' {
        if i >= 11 { assert host[i] == config.domainSuffix[i - 11]; }
      }
    }
    DecisionEndpointUriAsJoins(config, decisionEndpointId);
    SegmentsOfEightJoins("https:", "", host, "v1", "environments", config.environmentId, "decisionEndpoints",
                         decisionEndpointId);
  }

  /** Eight texts without '/', joined with '/', have exactly those texts as segments. */
  lemma SegmentsOfEightJoins(p0: string, p1: string, p2: string, p3: string, p4: string, p5: string, p6: string, p7: string)
    requires '/' !in p0 && '/' !in p1 && '/' !in p2 && '/' !in p3
    requires '/' !in p4 && '/' !in p5 && '/' !in p6 && '/' !in p7
    ensures Segments(p0 + "/" + (p1 + "/" + (p2 + "/" + (p3 + "/" + (p4 + "/" + (p5 + "/" + (p6 + "/" + p7)))))))
         == [p0, p1, p2, p3, p4, p5, p6, p7]
  {
    var t6 := p6 + "/" + p7;
    var t5 := p5 + "/" + t6;
    var t4 := p4 + "/" + t5;
    var t3 := p3 + "/" + t4;
    var t2 := p2 + "/" + t3;
    var t1 := p1 + "/" + t2;
    SegmentsOfPlain(p7);
    SegmentsOfPlainJoin(p6, p7);
    SegmentsOfPlainJoin(p5, t6);
    SegmentsOfPlainJoin(p4, t5);
    SegmentsOfPlainJoin(p3, t4);
    SegmentsOfPlainJoin(p2, t3);
    SegmentsOfPlainJoin(p1, t2);
    SegmentsOfPlainJoin(p0, t1);
  }
}
