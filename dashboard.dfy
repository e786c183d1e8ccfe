/**
 * The dashboard component (frontend/src/App.js) as an object: its state
 * hooks are fields and each event handler is a method. A handler runs to
 * completion before the next event is handled; what a request returns or a
 * socket delivers is a parameter, `None` when the `fetch`, the JSON parse or
 * the CSV parse throws, in which case the handler stops before its state
 * updates.
 */
module Dashboard {
  import opened Wrappers
  import opened Fields
  import opened Values
  import opened Features

  class App {
    /** The editable form (`form`). */
    var form: Object
    /** The last single-prediction reply (`result`), `None` for `null`. */
    var result: Option<Object>
    /** The trend history, one 0/1 entry per reply or live packet. */
    var history: seq<Bit>
    /** The last batch reply (`batchResults`). */
    var batchResults: Option<Object>
    /** The live table, newest packet first. */
    var liveData: seq<Object>
    var liveStatus: LiveStatus
    /** `wsRef.current`: the most recently created socket, if any. */
    var socket: Option<nat>
    /** How many sockets the page has created; the next one gets this number. */
    var socketsCreated: nat

    /**
     * The live table never holds more than 50 packets, and the current
     * socket, if any, is one the page has already created.
     */
    predicate Valid()
      reads this
    {
      |liveData| <= LiveCapacity
      && (socket.Some? ==> socket.value < socketsCreated)
    }

    /** The page as first rendered. */
    constructor ()
      ensures Valid()
      ensures form == InitialForm && result == None && history == []
      ensures batchResults == None && liveData == []
      ensures liveStatus == Disconnected && socket == None && socketsCreated == 0
    {
      form := InitialForm;
      result := None;
      history := [];
      batchResults := None;
      liveData := [];
      liveStatus := Disconnected;
      socket := None;
      socketsCreated := 0;
    }

    /** The x-axis labels of the trend chart. */
    function Labels(): (r: seq<int>)
      reads this
      ensures |r| == |history|
      ensures forall i :: 0 <= i < |r| ==> r[i] == i + 1
    {
      ChartLabels(history)
    }

    /** Which live-mode button is enabled. */
    function Controls(): (c: LiveControls)
      reads this
      ensures c.startEnabled != c.stopEnabled
      ensures c.stopEnabled <==> liveStatus == Connected
    {
      ControlsFor(liveStatus)
    }

    /** "Normal Example": replaces the whole form. */
    method SetExampleNormal()
      requires Valid()
      modifies this
      ensures Valid()
      ensures form == NormalExample()
      ensures result == old(result) && history == old(history) && batchResults == old(batchResults)
      ensures liveData == old(liveData) && liveStatus == old(liveStatus)
      ensures socket == old(socket) && socketsCreated == old(socketsCreated)
    {
      form := NormalExample();
    }

    /** "Attack Example": replaces the whole form. */
    method SetExampleAttack()
      requires Valid()
      modifies this
      ensures Valid()
      ensures form == AttackExample()
      ensures result == old(result) && history == old(history) && batchResults == old(batchResults)
      ensures liveData == old(liveData) && liveStatus == old(liveStatus)
      ensures socket == old(socket) && socketsCreated == old(socketsCreated)
    {
      form := AttackExample();
    }

    /** `handleChange`: the input named `name` now holds the text `value`. */
    method HandleChange(name: Key, value: string)
      requires Valid()
      modifies this
      ensures Valid()
      ensures form == EditField(old(form), name, value)
      ensures result == old(result) && history == old(history) && batchResults == old(batchResults)
      ensures liveData == old(liveData) && liveStatus == old(liveStatus)
      ensures socket == old(socket) && socketsCreated == old(socketsCreated)
    {
      form := EditField(form, name, value);
    }

    /**
     * `predict`: sends the full record built from the form and, once the
     * reply's JSON is read (`reply` is `None` when the request or the parse
     * throws), stores it and appends its flag to the history. An error body
     * such as `{"detail": ...}` is stored too and adds a 0.
     */
    method Predict(reply: Option<Object>, parse: string -> JsNumber) returns (packet: Object)
      requires Valid()
      modifies this
      ensures Valid()
      ensures packet == BuildFullFeatures(form, parse)
      ensures form == old(form)
      ensures reply.None? ==> result == old(result) && history == old(history)
      ensures reply.Some? ==> result == reply && history == RecordFlag(old(history), reply.value)
      ensures batchResults == old(batchResults) && liveData == old(liveData) && liveStatus == old(liveStatus)
      ensures socket == old(socket) && socketsCreated == old(socketsCreated)
    {
      packet := BuildFullFeatures(form, parse);
      if reply.Some? {
        result := reply;
        history := RecordFlag(history, reply.value);
      }
    }

    /**
     * `handleCSV`: with no file chosen nothing happens. Otherwise every
     * parsed row is expanded into a full record, and the records go out in
     * one batch request (`sent`) whose reply is stored as it is.
     */
    method HandleCsv(file: Option<seq<CsvRow>>, reply: Option<Object>, parse: string -> JsNumber)
      returns (sent: Option<seq<Object>>)
      requires Valid()
      modifies this
      ensures Valid()
      ensures file.None? ==> sent.None? && batchResults == old(batchResults)
      ensures file.Some? ==> sent == Some(BatchRecords(file.value, parse))
      ensures file.Some? && reply.Some? ==> batchResults == reply
      ensures reply.None? ==> batchResults == old(batchResults)
      ensures form == old(form) && result == old(result) && history == old(history)
      ensures liveData == old(liveData) && liveStatus == old(liveStatus)
      ensures socket == old(socket) && socketsCreated == old(socketsCreated)
    {
      if file.None? {
        return None;
      }
      sent := Some(BatchRecords(file.value, parse));
      if reply.Some? {
        batchResults := reply;
      }
    }

    /**
     * `startLiveStream`: opens a new socket and makes it the current one.
     * Nothing stops a second press from opening another socket while the
     * first is still connecting; the status changes only when a socket
     * reports that it opened.
     */
    method StartLiveStream() returns (created: nat)
      requires Valid()
      modifies this
      ensures Valid()
      ensures created == old(socketsCreated) && socket == Some(created)
      ensures socketsCreated == old(socketsCreated) + 1
      ensures liveStatus == NextStatus(old(liveStatus), StartPressed)
      ensures form == old(form) && result == old(result) && history == old(history)
      ensures batchResults == old(batchResults) && liveData == old(liveData)
    {
      created := socketsCreated;
      socket := Some(created);
      socketsCreated := socketsCreated + 1;
    }

    /** A socket's `onopen`. */
    method OnOpen()
      requires Valid()
      modifies this
      ensures Valid()
      ensures liveStatus == NextStatus(old(liveStatus), Opened)
      ensures form == old(form) && result == old(result) && history == old(history)
      ensures batchResults == old(batchResults) && liveData == old(liveData)
      ensures socket == old(socket) && socketsCreated == old(socketsCreated)
    {
      liveStatus := Connected;
    }

    /** A socket's `onclose`. */
    method OnClose()
      requires Valid()
      modifies this
      ensures Valid()
      ensures liveStatus == NextStatus(old(liveStatus), Closed)
      ensures form == old(form) && result == old(result) && history == old(history)
      ensures batchResults == old(batchResults) && liveData == old(liveData)
      ensures socket == old(socket) && socketsCreated == old(socketsCreated)
    {
      liveStatus := Disconnected;
    }

    /**
     * A socket's `onmessage`: the packet goes to the front of the live table
     * (which keeps 50 at most) and its flag to the end of the history.
     * `packet` is `None` when the message is not JSON.
     */
    method OnMessage(packet: Option<Object>)
      requires Valid()
      modifies this
      ensures Valid()
      ensures packet.None? ==> liveData == old(liveData) && history == old(history)
      ensures packet.Some? ==> liveData == PushLive(old(liveData), packet.value)
      ensures packet.Some? ==> history == RecordFlag(old(history), packet.value)
      ensures form == old(form) && result == old(result) && batchResults == old(batchResults)
      ensures liveStatus == old(liveStatus)
      ensures socket == old(socket) && socketsCreated == old(socketsCreated)
    {
      if packet.Some? {
        liveData := PushLive(liveData, packet.value);
        history := RecordFlag(history, packet.value);
      }
    }

    /**
     * `stopLiveStream`: closes the current socket if there is one (`closed`)
     * and shows the page as disconnected. The reference is not cleared, so a
     * later press closes the same socket again.
     */
    method StopLiveStream() returns (closed: Option<nat>)
      requires Valid()
      modifies this
      ensures Valid()
      ensures closed == old(socket)
      ensures liveStatus == NextStatus(old(liveStatus), StopPressed)
      ensures form == old(form) && result == old(result) && history == old(history)
      ensures batchResults == old(batchResults) && liveData == old(liveData)
      ensures socket == old(socket) && socketsCreated == old(socketsCreated)
    {
      closed := socket;
      liveStatus := Disconnected;
    }
  }

  /**
   * A live session: start, the socket opens, two packets arrive (an attack
   * and a normal one), stop. The table shows the newest first, the history
   * has both flags in arrival order and the page is disconnected again.
   */
  method LiveSession(attack: Object, normal: Object) returns (table: seq<Object>, trend: seq<Bit>, labels: seq<int>)
    requires Get(attack, IsIntrusionKey) == Bool(true)
    requires Get(normal, IsIntrusionKey) == Bool(false)
    ensures table == [normal, attack]
    ensures trend == [1, 0] && labels == [1, 2]
  {
    var app := new App();
    var id := app.StartLiveStream();
    app.OnOpen();
    assert app.Controls().stopEnabled;
    app.OnMessage(Some(attack));
    app.OnMessage(Some(normal));
    var closed := app.StopLiveStream();
    assert closed == Some(id);
    assert app.liveStatus == Disconnected && app.Controls().startEnabled;
    table, trend, labels := app.liveData, app.history, app.Labels();
  }
}
