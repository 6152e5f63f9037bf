/** Which subscription receives which topic: the manager's request filters, its response topics, and
    the data subtopics of senders and FanIn processes. */
module Topics {

  // ---------- Topic levels (sections 4.7.1.1 and 4.7.1.3 of MQTT 3.1.1) ----------

  /** The levels of a topic, separated by '/'. */
  function Levels(s: string): (ls: seq<string>)
    ensures |ls| >= 1
  {
    if s == "" then [""]
    else if s[0] == '/' then [""] + Levels(s[1..])
    else var rest := Levels(s[1..]); [[s[0]] + rest[0]] + rest[1..]
  }

  /** A filter without '#': level by level, '+' stands for any one level. */
  predicate Matches(filter: string, topic: string) {
    var f, t := Levels(filter), Levels(topic);
    |f| == |t| && forall i :: 0 <= i < |f| ==> f[i] == "+" || f[i] == t[i]
  }

  lemma {:induction false} LevelsOfConcat(a: string, b: string)
    ensures Levels(a + "/" + b) == Levels(a) + Levels(b)
  {
    if a == "" {
      assert a + "/" + b == "/" + b;
      assert ("/" + b)[1..] == b;
    } else {
      LevelsOfConcat(a[1..], b);
      assert (a + "/" + b)[1..] == a[1..] + "/" + b;
      FirstLevel(a[0], Levels(a[1..]), Levels(b));
    }
  }

  lemma FirstLevel(c: char, ls: seq<string>, ms: seq<string>)
    requires |ls| >= 1
    ensures [[c] + ls[0]] + ls[1..] + ms == [[c] + (ls + ms)[0]] + (ls + ms)[1..]
    ensures [""] + ls + ms == [""] + (ls + ms)
  {
  }

  lemma {:induction false} OneLevel(a: string)
    ensures |Levels(a)| == 1 <==> '/' !in a
    ensures '/' !in a ==> Levels(a) == [a]
  {
    if a != "" {
      OneLevel(a[1..]);
      assert a == [a[0]] + a[1..];
    }
  }

  // ---------- The manager's topics ----------

  datatype Family = Registration | DeviceRegistration | Deregistration

  function Root(f: Family): string {
    match f
    case Registration => "agent-registration"
    case DeviceRegistration => "device-registration"
    case Deregistration => "agent-deregistration"
  }

  function RequestFilter(f: Family): string {
    Root(f) + "/+/request"
  }

  function RequestTopic(f: Family, key: string): string {
    Root(f) + "/" + key + "/request"
  }

  function ResponseTopic(f: Family, key: string): string {
    Root(f) + "/" + key + "/response"
  }

  lemma RootsDiffer(f: Family, g: Family)
    ensures Root(f) == Root(g) <==> f == g
    ensures Root(f) != "+"
  {
    assert |Root(Registration)| == 18 && |Root(DeviceRegistration)| == 19 && |Root(Deregistration)| == 20;
  }

  lemma RootIsOneLevel(f: Family)
    ensures Levels(Root(f)) == [Root(f)]
  {
    assert forall i :: 0 <= i < |Root(f)| ==> Root(f)[i] != '/';
    OneLevel(Root(f));
  }

  lemma LevelsOfTopic(f: Family, key: string, end: string)
    requires '/' !in end
    ensures Levels(Root(f) + "/" + key + "/" + end) == [Root(f)] + Levels(key) + [end]
  {
    RootIsOneLevel(f);
    OneLevel(end);
    LevelsOfConcat(Root(f), key);
    LevelsOfConcat(Root(f) + "/" + key, end);
  }

  lemma LevelsOfFilter(f: Family)
    ensures Levels(RequestFilter(f)) == [Root(f), "+", "request"]
  {
    LevelsOfTopic(f, "+", "request");
    OneLevel("+");
    assert RequestFilter(f) == Root(f) + "/" + "+" + "/" + "request";
  }

  lemma LevelsOfRequest(f: Family, key: string)
    ensures Levels(RequestTopic(f, key)) == [Root(f)] + Levels(key) + ["request"]
  {
    LevelsOfTopic(f, key, "request");
    assert RequestTopic(f, key) == Root(f) + "/" + key + "/" + "request";
  }

  /** A request reaches the listener of its own family and no other, exactly if its key has no '/':
      a uid with a slash in it is never answered. */
  lemma RequestRouting(f: Family, g: Family, key: string)
    ensures Matches(RequestFilter(f), RequestTopic(g, key)) <==> f == g && '/' !in key
  {
    LevelsOfFilter(f);
    LevelsOfRequest(g, key);
    RootsDiffer(f, g);
    OneLevel(key);
    var fs, ts := Levels(RequestFilter(f)), Levels(RequestTopic(g, key));
    assert fs[0] == Root(f) && ts[0] == Root(g);
    assert |ts| == |Levels(key)| + 2;
    if f == g && '/' !in key {
      assert ts == [Root(g), key, "request"];
    }
  }

  lemma LevelsOfResponse(f: Family, key: string)
    ensures Levels(ResponseTopic(f, key)) == [Root(f)] + Levels(key) + ["response"]
  {
    LevelsOfTopic(f, key, "response");
    assert ResponseTopic(f, key) == Root(f) + "/" + key + "/" + "response";
  }

  /** No listener ever receives a response, whatever its key. */
  lemma ResponsesStayOut(f: Family, g: Family, key: string)
    ensures !Matches(RequestFilter(f), ResponseTopic(g, key))
  {
    LevelsOfFilter(f);
    LevelsOfResponse(g, key);
    var t := Levels(ResponseTopic(g, key));
    assert t[|t| - 1] == "response";
    assert |t| == 3 ==> Levels(RequestFilter(f))[2] != t[2];
  }

  lemma Cancel(prefix: string, a: string, b: string, suffix: string)
    requires prefix + a + suffix == prefix + b + suffix
    ensures a == b
  {
    assert |a| == |b|;
    assert (prefix + a + suffix)[|prefix|..|prefix| + |a|] == a;
    assert (prefix + b + suffix)[|prefix|..|prefix| + |b|] == b;
  }

  /** Two agents never share a response topic. */
  lemma ResponsesInjective(f: Family, g: Family, key: string, key': string)
    ensures ResponseTopic(f, key) == ResponseTopic(g, key') <==> f == g && key == key'
  {
    if ResponseTopic(f, key) == ResponseTopic(g, key') {
      LevelsOfResponse(f, key);
      LevelsOfResponse(g, key');
      assert Levels(ResponseTopic(f, key))[0] == Root(f) && Levels(ResponseTopic(g, key'))[0] == Root(g);
      RootsDiffer(f, g);
      Cancel(Root(f) + "/", key, key', "/response");
    }
  }

  // ---------- Data subtopics ----------

  function Digit(d: nat): char
    requires d < 10
  {
    ['0', '1', '2', '3', '4', '5', '6', '7', '8', '9'][d]
  }

  function Decimal(n: nat): (s: string)
    ensures s != ""
  {
    if n < 10 then [Digit(n)] else Decimal(n / 10) + [Digit(n % 10)]
  }

  lemma {:induction false} DecimalInjective(m: nat, n: nat)
    ensures Decimal(m) == Decimal(n) <==> m == n
  {
    if Decimal(m) == Decimal(n) {
      var d, e := Decimal(m), Decimal(n);
      assert d[|d| - 1] == Digit(m % 10) && e[|e| - 1] == Digit(n % 10);
      if m >= 10 && n >= 10 {
        assert d[..|d| - 1] == Decimal(m / 10) && e[..|e| - 1] == Decimal(n / 10);
        DecimalInjective(m / 10, n / 10);
      }
    }
  }

  lemma {:induction false} DecimalIsPlain(n: nat)
    ensures ':' !in Decimal(n) && '/' !in Decimal(n)
  {
    if n >= 10 {
      DecimalIsPlain(n / 10);
    }
  }

  /** The number that a string of digits stands for. */
  function ValueOf(s: string): int {
    if s == "" then 0 else 10 * ValueOf(s[..|s| - 1]) + (s[|s| - 1] as int - '0' as int)
  }

  lemma {:induction false} DecimalValue(n: nat)
    ensures ValueOf(Decimal(n)) == n
  {
    if n >= 10 {
      DecimalValue(n / 10);
      assert Decimal(n)[..|Decimal(n)| - 1] == Decimal(n / 10);
    } else {
      assert Decimal(n)[..0] == "";
    }
  }

  /** What a sender publishes on. */
  function DataTopic(root: string, t: nat): string {
    root + "/" + Decimal(t)
  }

  /** A subtopic is one level below the topic, and its name is its number. */
  lemma SubtopicLevel(root: string, t: nat)
    ensures Levels(DataTopic(root, t)) == Levels(root) + [Decimal(t)] && ValueOf(Decimal(t)) == t
  {
    DecimalIsPlain(t);
    DecimalValue(t);
    LevelsOfConcat(root, Decimal(t));
    OneLevel(Decimal(t));
  }

  function BeforeColon(s: string): string {
    if s == "" || s[0] == ':' then "" else [s[0]] + BeforeColon(s[1..])
  }

  lemma {:induction false} BeforeColonOf(a: string, b: string)
    requires ':' !in a
    ensures BeforeColon(a + ":" + b) == a
  {
    if a == "" {
      assert a + ":" + b == ":" + b;
    } else {
      BeforeColonOf(a[1..], b);
      assert (a + ":" + b)[1..] == a[1..] + ":" + b;
    }
  }

  /** One entry per FanIn process; with one subtopic it is the configured `<root>/0:<qos>`. */
  function TopicEntry(root: string, qos: string, t: nat): string {
    root + "/" + Decimal(t) + ":" + qos
  }

  method BuildTopicsList(root: string, qos: string, numberOfMqttTopics: nat) returns (topics: seq<string>)
    ensures |topics| == numberOfMqttTopics
    ensures forall t :: 0 <= t < |topics| ==> topics[t] == TopicEntry(root, qos, t)
  {
    topics := [];
    var i := 0;
    while i < numberOfMqttTopics
      invariant i <= numberOfMqttTopics && |topics| == i
      invariant forall t :: 0 <= t < i ==> topics[t] == TopicEntry(root, qos, t)
    {
      topics := topics + [root + "/" + Decimal(i) + ":" + qos];
      i := i + 1;
    }
  }

  /** The topic that a process compares incoming messages with. */
  function ListenTopic(entry: string): string {
    BeforeColon(entry)
  }

  /** What `split(":")` has after the first colon, up to the next one: the QoS of the subscription. */
  function SecondField(s: string): string {
    if s == "" then "" else if s[0] == ':' then BeforeColon(s[1..]) else SecondField(s[1..])
  }

  lemma {:induction false} SecondFieldOf(a: string, b: string)
    requires ':' !in a && ':' !in b
    ensures SecondField(a + ":" + b) == b
  {
    if a == "" {
      assert (a + ":" + b)[1..] == b;
      WithoutColon(b);
    } else {
      SecondFieldOf(a[1..], b);
      assert (a + ":" + b)[1..] == a[1..] + ":" + b;
    }
  }

  lemma {:induction false} WithoutColon(s: string)
    requires ':' !in s
    ensures BeforeColon(s) == s
  {
    if s != "" {
      WithoutColon(s[1..]);
      assert s == [s[0]] + s[1..];
    }
  }

  /** Each process subscribes with the configured QoS. */
  lemma QosOfProcess(root: string, qos: string, process: nat)
    requires ':' !in root && ':' !in qos
    ensures SecondField(TopicEntry(root, qos, process)) == qos
  {
    DecimalIsPlain(process);
    SecondFieldOf(DataTopic(root, process), qos);
  }

  /** With as many processes as subtopics, each published batch is accepted by exactly one of them. */
  lemma OneProcessPerSubtopic(root: string, qos: string, published: nat, process: nat)
    requires ':' !in root
    ensures ListenTopic(TopicEntry(root, qos, process)) == DataTopic(root, published) <==> process == published
  {
    DecimalIsPlain(process);
    BeforeColonOf(DataTopic(root, process), qos);
    DecimalInjective(published, process);
    if DataTopic(root, process) == DataTopic(root, published) {
      assert DataTopic(root, process)[|root| + 1..] == Decimal(process);
      assert DataTopic(root, published)[|root| + 1..] == Decimal(published);
    }
  }
}
