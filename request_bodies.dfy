/**
 * The request bodies for views, preset alerts and categories, each filled
 * in place from the resource's declared attributes by `CreateRequestBody`.
 */
module RequestBodies {
  import opened Attributes
  import opened Facets
  import opened ChannelMappers
  import opened ChannelAggregation

  /** `viewRequest`. */
  class ViewRequest {
    var apps: seq<string>
    var category: seq<string>
    var channels: seq<ChannelRequest>
    var hosts: seq<string>
    var levels: seq<string>
    var name: string
    var query: string
    var tags: seq<string>

    /** The zero value `viewRequest{}`. */
    constructor ()
      ensures apps == [] && category == [] && channels == [] && hosts == []
      ensures levels == [] && name == "" && query == "" && tags == []
    {
      apps, category, channels, hosts := [], [], [], [];
      levels, name, query, tags := [], "", "", [];
    }

    /** Copies name and query, filters the five facets, and attaches the
        aggregated channels; returns the diagnostics of the aggregation. */
    method CreateRequestBody(d: ResourceData, unmarshal: Unmarshaler) returns (diags: seq<Diagnostic>)
      requires ChannelAttributes(d)
      modifies this
      ensures name == d.name && query == d.query
      ensures apps == FilterStrings(d.apps)
      ensures category == FilterStrings(d.categories)
      ensures hosts == FilterStrings(d.hosts)
      ensures levels == FilterStrings(d.levels)
      ensures tags == FilterStrings(d.tags)
      ensures channels == AllChannels(d, unmarshal)
      ensures diags == ChannelDiagnostics(d, unmarshal)
    {
      // Simple arrays
      var appList := ListToStrings(d.apps);
      var categoryList := ListToStrings(d.categories);
      var hostList := ListToStrings(d.hosts);
      var levelList := ListToStrings(d.levels);
      var tagList := ListToStrings(d.tags);

      // Channels
      var channelList;
      channelList, diags := AggregateAllChannels(d, unmarshal, []);

      name, query := d.name, d.query;
      apps, category, hosts, levels, tags := appList, categoryList, hostList, levelList, tagList;
      channels := channelList;
    }
  }

  /** `alertRequest`. */
  class AlertRequest {
    var name: string
    var channels: seq<ChannelRequest>

    /** The zero value `alertRequest{}`. */
    constructor ()
      ensures name == "" && channels == []
    {
      name, channels := "", [];
    }

    /** Copies the name and attaches the aggregated channels; no facets. */
    method CreateRequestBody(d: ResourceData, unmarshal: Unmarshaler) returns (diags: seq<Diagnostic>)
      requires ChannelAttributes(d)
      modifies this
      ensures name == d.name
      ensures channels == AllChannels(d, unmarshal)
      ensures diags == ChannelDiagnostics(d, unmarshal)
    {
      diags := [];
      name := d.name;
      channels, diags := AggregateAllChannels(d, unmarshal, diags);
    }
  }

  /** `categoryRequest`. */
  class CategoryRequest {
    var name: string
    var categoryType: string

    /** The zero value `categoryRequest{}`. */
    constructor ()
      ensures name == "" && categoryType == ""
    {
      name, categoryType := "", "";
    }

    /** Copies the name only: the type is left as it was, and nothing is diagnosed. */
    method CreateRequestBody(d: ResourceData) returns (diags: seq<Diagnostic>)
      modifies this
      ensures name == d.name
      ensures categoryType == old(categoryType)
      ensures diags == []
    {
      diags := [];
      name := d.name;
    }
  }
}
