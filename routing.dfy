/**
 * Channel topology of the plugin-data exchange: every (plugin, resource tag)
 * pair has a request routing key and a response routing key. Each queue is
 * named after, and bound by, its routing key.
 */
module Routing {

  const RequestPrefix: string := "plugin_data_request_"
  const ResponsePrefix: string := "plugin_data_response_"

  /** "plugin_data_request_%s_%s" % (plugin_name, resource_tag) */
  function RequestKey(plugin: string, tag: string): (k: string)
    ensures RequestPrefix <= k
    ensures |k| == |RequestPrefix| + |plugin| + 1 + |tag|
  {
    RequestPrefix + plugin + "_" + tag
  }

  /** "plugin_data_response_%s_%s" % (plugin_name, resource_tag) */
  function ResponseKey(plugin: string, tag: string): (k: string)
    ensures ResponsePrefix <= k
    ensures |k| == |ResponsePrefix| + |plugin| + 1 + |tag|
  {
    ResponsePrefix + plugin + "_" + tag
  }

  /**
   * No request key is ever a response key, whatever the plugins and tags:
   * the two prefixes part at their fifteenth character ('q' against 's').
   */
  lemma RequestAndResponseKeysDiffer(p1: string, t1: string, p2: string, t2: string)
    ensures RequestKey(p1, t1) != ResponseKey(p2, t2)
  {
    var rq, rs := RequestKey(p1, t1), ResponseKey(p2, t2);
    assert rq[14] == RequestPrefix[14] == 'q';
    assert rs[14] == ResponsePrefix[14] == 's';
  }

  /**
   * Keys are plain concatenations, so an underscore in a plugin name or tag
   * can make two different channels share one key.
   */
  lemma ChannelsCanShareAKey()
    ensures RequestKey("a_b", "c") == RequestKey("a", "b_c")
    ensures ("a_b", "c") != ("a", "b_c")
  {
    assert RequestKey("a_b", "c") == RequestPrefix + "a_b_c";
    assert RequestKey("a", "b_c") == RequestPrefix + "a_b_c";
  }

  /** For one plugin name, the tag is recovered from the key. */
  lemma RequestKeyDeterminesTag(p: string, t1: string, t2: string)
    requires RequestKey(p, t1) == RequestKey(p, t2)
    ensures t1 == t2
  {
    var k := RequestKey(p, t1);
    var n := |RequestPrefix| + |p| + 1;
    assert k[n..] == t1;
    assert RequestKey(p, t2)[n..] == t2;
  }
}
