/**
 * The outbound commands of the widget: the queued message record, the frame
 * handed to `postMessage`, and the messages each public call builds.
 */
module Messages {
  import opened Options
  import opened Themes
  import opened Settings

  /** A JavaScript value as it appears in a payload (`undefined`, a string or a plain object). */
  datatype Value = Undefined | Str(s: string) | Obj(fields: map<string, Value>)

  /** A message payload, and the frame `{type, ...payload}` posted to the iframe. */
  type Payload = map<string, Value>

  /** `QueuedMessage`; the source's `type` field is called `kind` here. */
  datatype QueuedMessage = QueuedMessage(kind: string, payload: Payload, retries: int, maxRetries: int)

  /** `MAX_RETRIES`: every message may be retried this many times. */
  const MaxRetries: int := 3

  /** The retry counter stays within its ceiling. */
  predicate WithinBounds(m: QueuedMessage) {
    0 <= m.retries <= m.maxRetries
  }

  /** What every public call builds: a message with no attempts yet and the fixed ceiling. */
  predicate IsNew(m: QueuedMessage) {
    m.retries == 0 && m.maxRetries == MaxRetries
  }

  /** What may sit in the queue: the fixed ceiling, a bounded counter, and no payload key shadowing `type`. */
  predicate Admissible(m: QueuedMessage) {
    m.maxRetries == MaxRetries && WithinBounds(m) && "type" !in m.payload
  }

  /**
   * The object literal `{type: m.type, ...m.payload}`: the spread comes last,
   * so a payload key would win over `type`; the retry bookkeeping is not sent.
   */
  function Frame(m: QueuedMessage): (f: Payload)
    ensures f.Keys == {"type"} + m.payload.Keys
    ensures forall k :: k in m.payload ==> f[k] == m.payload[k]
    ensures "type" !in m.payload ==> f["type"] == Str(m.kind)
  {
    map["type" := Str(m.kind)] + m.payload
  }

  /** The frames of a sequence of messages, in order. */
  function Frames(q: seq<QueuedMessage>): (fs: seq<Payload>)
    ensures |fs| == |q|
    ensures forall i :: 0 <= i < |q| ==> fs[i] == Frame(q[i])
  {
    if q == [] then [] else [Frame(q[0])] + Frames(q[1..])
  }

  lemma {:induction false} FramesConcat(a: seq<QueuedMessage>, b: seq<QueuedMessage>)
    ensures Frames(a + b) == Frames(a) + Frames(b)
  {
    if a == [] {
      assert a + b == b;
    } else {
      assert (a + b)[1..] == a[1..] + b;
      FramesConcat(a[1..], b);
    }
  }

  /** A new message as the public calls build it. */
  function NewMessage(kind: string, payload: Payload): QueuedMessage {
    QueuedMessage(kind, payload, 0, MaxRetries)
  }

  /** An optional string as a payload value: absent becomes `undefined`. */
  function OptionalStr(o: Option<string>): Value {
    match o
    case Some(s) => Str(s)
    case None => Undefined
  }

  /** A plain object holding only the fields that are present. */
  function PresentFields(fields: map<string, Option<string>>): (v: Value)
    ensures v.Obj?
    ensures v.fields.Keys == set k | k in fields && fields[k].Some?
    ensures forall k :: k in v.fields ==> v.fields[k] == Str(fields[k].value)
  {
    Obj(map k | k in fields && fields[k].Some? :: Str(fields[k].value))
  }

  /** A `CustomerDataModel`. */
  datatype CustomerData = CustomerData(name: Option<string>, email: Option<string>, phone: Option<string>)

  /** The customer object as posted: each supplied field with its value, and no other key. */
  function CustomerDataValue(d: CustomerData): (v: Value)
    ensures v.Obj? && v.fields.Keys <= {"name", "email", "phone"}
    ensures "name" in v.fields <==> d.name.Some?
    ensures "email" in v.fields <==> d.email.Some?
    ensures "phone" in v.fields <==> d.phone.Some?
    ensures d.name.Some? ==> v.fields["name"] == Str(d.name.value)
    ensures d.email.Some? ==> v.fields["email"] == Str(d.email.value)
    ensures d.phone.Some? ==> v.fields["phone"] == Str(d.phone.value)
  {
    PresentFields(map["name" := d.name, "email" := d.email, "phone" := d.phone])
  }

  /** A theme as a plain object of strings, field for field. */
  function ThemeValue(t: Theme): (v: Value)
    ensures v.Obj? && v.fields.Keys == t.Keys
    ensures forall k :: k in t ==> v.fields[k] == Str(t[k])
  {
    Obj(map k | k in t :: Str(t[k]))
  }

  /** The string value of a `ThemeMode`. */
  function ThemeModeName(mode: ThemeMode): (s: string)
    ensures s == "light" || s == "dark" || s == "system"
    ensures s == "light" <==> mode == Light
    ensures s == "dark" <==> mode == Dark
    ensures s == "system" <==> mode == System
  {
    match mode
    case Light => "light"
    case Dark => "dark"
    case System => "system"
  }

  /** The INIT message of the load handler, built from the configuration current at load time. */
  function InitMessage(apiKey: string, supportImage: Option<string>, position: Position): (m: QueuedMessage)
    ensures m.kind == "INIT" && IsNew(m) && Admissible(m)
    ensures m.payload.Keys == {"apiKey", "supportImage", "position"}
    ensures m.payload["apiKey"] == Str(apiKey) && m.payload["position"] == Str(PositionName(position))
    ensures m.payload["supportImage"] == OptionalStr(supportImage)
  {
    NewMessage("INIT", map[
      "apiKey" := Str(apiKey),
      "supportImage" := OptionalStr(supportImage),
      "position" := Str(PositionName(position))])
  }

  function LoginMessage(userId: string): (m: QueuedMessage)
    ensures m.kind == "LOGIN" && IsNew(m) && Admissible(m)
    ensures m.payload.Keys == {"userId"} && m.payload["userId"] == Str(userId)
  {
    NewMessage("LOGIN", map["userId" := Str(userId)])
  }

  function LogoutMessage(): (m: QueuedMessage)
    ensures m.kind == "LOGOUT" && IsNew(m) && Admissible(m)
    ensures m.payload == map[]
  {
    NewMessage("LOGOUT", map[])
  }

  function CustomerDataMessage(d: CustomerData): (m: QueuedMessage)
    ensures m.kind == "CUSTOMER_DATA" && IsNew(m) && Admissible(m)
    ensures m.payload.Keys == {"data"} && m.payload["data"] == CustomerDataValue(d)
  {
    NewMessage("CUSTOMER_DATA", map["data" := CustomerDataValue(d)])
  }

  /** The THEME message carries the argument of `setTheme`, not the merged theme. */
  function ThemeMessage(update: Theme): (m: QueuedMessage)
    ensures m.kind == "THEME" && IsNew(m) && Admissible(m)
    ensures m.payload.Keys == {"theme"} && m.payload["theme"].Obj?
    ensures m.payload["theme"].fields.Keys == update.Keys
    ensures m.payload["theme"] == ThemeValue(update)
  {
    NewMessage("THEME", map["theme" := ThemeValue(update)])
  }

  function ThemeModeMessage(mode: ThemeMode): (m: QueuedMessage)
    ensures m.kind == "THEME_MODE" && IsNew(m) && Admissible(m)
    ensures m.payload == map["themeMode" := Str(ThemeModeName(mode))]
  {
    NewMessage("THEME_MODE", map["themeMode" := Str(ThemeModeName(mode))])
  }
}
