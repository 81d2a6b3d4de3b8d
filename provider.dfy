/** The provider itself: the validation of its configuration, the split of
    the scheme off the host, the client transport it hands to the
    resources, and the resources it registers. */
module Provider {
  import opened Strings
  import opened Framework

  /** `MarmotProviderModel`. */
  datatype ProviderModel = ProviderModel(host: TfString, apiKey: TfString)

  /** The HTTP transport of the generated client: host, base path, schemes
      and the API key authentication (the name and location of the key). */
  datatype Transport = Transport(
    host: string,
    basePath: string,
    schemes: seq<string>,
    keyName: string,
    keyIn: string,
    apiKey: string)

  const MissingHost := Diagnostic("Missing Marmot API Host",
                                  "The provider cannot create the Marmot API client without a host", Some("host"))
  const MissingApiKey := Diagnostic("Missing Marmot API Key",
                                    "The provider cannot create the Marmot API client without an API key", Some("api_key"))

  /** `Configure`: reports every missing (null) setting, and builds the
      client only when none is missing. An unknown setting is not rejected
      and counts as empty. The scheme is `http` for a host starting with
      `http://` and `https` otherwise; a leading `http://` or `https://` is
      removed once. Resources and data sources receive the same client. */
  method Configure(config: ProviderModel)
    returns (diags: seq<Diagnostic>, resourceData: Option<Transport>, dataSourceData: Option<Transport>)
    ensures diags == (if config.host.StringNull? then [MissingHost] else [])
                   + (if config.apiKey.StringNull? then [MissingApiKey] else [])
    ensures diags != [] ==> resourceData == None && dataSourceData == None
    ensures diags == [] ==> resourceData.Some? && dataSourceData == resourceData
    ensures resourceData.Some? ==>
              var t := resourceData.value;
              var host := ValueString(config.host);
              && t.basePath == "/api/v1" && t.keyName == "X-API-Key" && t.keyIn == "header"
              && t.apiKey == ValueString(config.apiKey)
              && |t.schemes| == 1
              && (t.schemes[0] == "http" <==> HasPrefix(host, "http://"))
              && (HasPrefix(host, "http://") ==> "http://" + t.host == host)
              && (!HasPrefix(host, "http://") && HasPrefix(host, "https://") ==>
                    t.schemes == ["https"] && "https://" + t.host == host)
              && (!HasPrefix(host, "http://") && !HasPrefix(host, "https://") ==>
                    t.schemes == ["https"] && t.host == host)
  {
    diags := [];
    resourceData := None;
    dataSourceData := None;
    if config.host.StringNull? {
      diags := diags + [MissingHost];
    }
    if config.apiKey.StringNull? {
      diags := diags + [MissingApiKey];
    }
    if diags != [] {
      return;
    }
    var host := ValueString(config.host);
    var apiKey := ValueString(config.apiKey);
    var scheme := "https";
    if HasPrefix(host, "http://") {
      scheme := "http";
      host := TrimPrefix(host, "http://");
    } else if HasPrefix(host, "https://") {
      host := TrimPrefix(host, "https://");
    }
    var transport := Transport(host, "/api/v1", [scheme], "X-API-Key", "header", apiKey);
    resourceData := Some(transport);
    dataSourceData := Some(transport);
  }

  /** The resource factories a provider can register. */
  datatype ResourceKind = AssetResource | LineageResource | GlossaryResource

  /** `Resources`: the asset and the lineage resource, in that order. The
      glossary resource is defined but not registered. */
  function Resources(): (r: seq<ResourceKind>)
    ensures |r| == 2 && r[0] == AssetResource && r[1] == LineageResource
    ensures GlossaryResource !in r
  {
    [AssetResource, LineageResource]
  }
}
