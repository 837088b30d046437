/** `describeOp`: the human-readable description of a planned operation. */
module ApplyMessages {
  import opened Strings
  import opened Plan

  function DescribeOp(op: AutolinkOp): string {
    match op
    case Create(keyPrefix, urlTemplate) => "autolink for " + keyPrefix + " -> " + urlTemplate
    case Update(id, keyPrefix, urlTemplate) => "autolink " + IntToString(id) + " for " + keyPrefix + " -> " + urlTemplate
    case Delete(id, keyPrefix) => "autolink " + IntToString(id) + " for " + keyPrefix
  }

  /**
   * Every description names an autolink; creations and updates end with
   * the target URL, deletions with the key prefix, and updates and
   * deletions start by naming the autolink's id and key prefix.
   */
  lemma DescribeOpShape(op: AutolinkOp)
    ensures StartsWith(DescribeOp(op), "autolink ")
    ensures !op.Delete? ==> EndsWith(DescribeOp(op), " -> " + op.urlTemplate)
    ensures op.Delete? ==> EndsWith(DescribeOp(op), " for " + op.keyPrefix)
    ensures !op.Create? ==> StartsWith(DescribeOp(op), "autolink " + IntToString(op.autolinkId) + " for " + op.keyPrefix)
  {
    match op
    case Create(keyPrefix, urlTemplate) => CreateDescription(keyPrefix, urlTemplate);
    case Update(id, keyPrefix, urlTemplate) =>
      UpdateDescription(id, keyPrefix, urlTemplate);
      NamedAutolink(DescribeOp(op), id, keyPrefix);
    case Delete(id, keyPrefix) =>
      DeleteDescription(id, keyPrefix);
      NamedAutolink(DescribeOp(op), id, keyPrefix);
  }

  lemma CreateDescription(keyPrefix: string, urlTemplate: string)
    ensures StartsWith(DescribeOp(Create(keyPrefix, urlTemplate)), "autolink ")
    ensures EndsWith(DescribeOp(Create(keyPrefix, urlTemplate)), " -> " + urlTemplate)
  {
    var head, tail := "autolink for " + keyPrefix, " -> " + urlTemplate;
    var r := head + tail;
    assert DescribeOp(Create(keyPrefix, urlTemplate)) == r;
    ConcatHasSuffix(head, tail);
    ConcatHasPrefix(head, tail);
    ConcatHasPrefix("autolink for ", keyPrefix);
    PrefixTransitive(r, head, "autolink for ");
    AutolinkForNamesAutolink();
    PrefixTransitive(r, "autolink for ", "autolink ");
  }

  lemma AutolinkForNamesAutolink()
    ensures StartsWith("autolink for ", "autolink ")
  {
  }

  lemma UpdateDescription(id: int, keyPrefix: string, urlTemplate: string)
    ensures StartsWith(DescribeOp(Update(id, keyPrefix, urlTemplate)), "autolink " + IntToString(id) + " for " + keyPrefix)
    ensures EndsWith(DescribeOp(Update(id, keyPrefix, urlTemplate)), " -> " + urlTemplate)
  {
    var head, tail := "autolink " + IntToString(id) + " for " + keyPrefix, " -> " + urlTemplate;
    assert DescribeOp(Update(id, keyPrefix, urlTemplate)) == head + tail;
    ConcatHasSuffix(head, tail);
    ConcatHasPrefix(head, tail);
  }

  lemma DeleteDescription(id: int, keyPrefix: string)
    ensures StartsWith(DescribeOp(Delete(id, keyPrefix)), "autolink " + IntToString(id) + " for " + keyPrefix)
    ensures EndsWith(DescribeOp(Delete(id, keyPrefix)), " for " + keyPrefix)
  {
    var head, tail := "autolink " + IntToString(id), " for " + keyPrefix;
    assert DescribeOp(Delete(id, keyPrefix)) == head + tail;
    ConcatHasSuffix(head, tail);
    PrefixReflexive(head + tail);
  }

  /** Anything that starts with "autolink <id> for" starts with "autolink ". */
  lemma NamedAutolink(s: string, id: int, keyPrefix: string)
    requires StartsWith(s, "autolink " + IntToString(id) + " for " + keyPrefix)
    ensures StartsWith(s, "autolink ")
  {
    var p := "autolink " + IntToString(id) + " for " + keyPrefix;
    assert p == "autolink " + (IntToString(id) + " for " + keyPrefix);
    ConcatHasPrefix("autolink ", IntToString(id) + " for " + keyPrefix);
    PrefixTransitive(s, p, "autolink ");
  }
}
