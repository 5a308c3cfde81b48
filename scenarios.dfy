/** Worked examples of the normaliser on concrete posts. */
module Scenarios {
  import opened Wrappers
  import opened Markup
  import opened Posts

  /** The source label of a post written in the web app, `<a href="x">Web App</a>`, strips to its text. */
  lemma CleanSourceExample(t: RawPost)
    requires t.source == Some("<a href=\"x\">Web App</a>")
    ensures CleanSource(t) == "Web App"
  {
    var open, text, close := "a href=\"x\"", "Web App", "/a";
    assert t.source.value == ['<'] + open + ['>'] + text + ['<'] + close + ['>'];
    StripTagsElement(open, text, close);
  }

  /** A retweeted answer to the account owner, with one hashtag and no media. */
  lemma SelfReplyRetweetExample(t: RawPost, account: Account)
    requires account == Account("123", "alice")
    requires t.inReplyToUserId == Some("123")
    requires t.fullText == Some("RT hello")
    requires t.entities == Some(Entities(None, Some([EntityItem("dafny")]), Some([]), None))
    requires t.source.None?
    ensures var r := FlattenPost(t, account);
            r.isReply && r.isSelfReply && r.inReplyToUserId == UserId("123") && r.retweet
            && !r.hasMedia && r.hashtags == 1 && r.userMentions == 0 && r.urls == 0 && r.source == ""
  {
  }
}
