/** The webhook controller (`WebhookController`): validation of the settings update and of the
    test request, and the rewrite of one `KEY=value` line of the `.env` file. */
module Settings {
  import opened Wrappers
  import opened Strings
  import opened AppConfig
  import opened DeliveryLog

  /** The `webhookUrls` field of the request body: not an array, or an array of strings. */
  datatype UrlsField = NotAnArray | UrlArray(items: seq<string>)

  /** The `url` field of the test request: missing, a string, or some other JSON value. */
  datatype UrlField = Absent | Text(text: string) | NonString

  /** The HTTP status and the `error` text of the JSON answer. */
  datatype Response = Response(status: int, error: Option<string>)

  /** Whether reading and writing the `.env` file succeed. */
  datatype FileIo = FileIo(readOk: bool, writeOk: bool)

  const EnvKey: string := "WEBHOOK_URLS"

  /** `webhookUrls.filter(url => new URL(url) succeeds)`, with URL parsing as `isValidUrl`. */
  function ValidUrls(urls: seq<string>, isValidUrl: string -> bool): (r: seq<string>)
    ensures |r| <= |urls|
    ensures forall i :: 0 <= i < |r| ==> isValidUrl(r[i])
    decreases |urls|
  {
    if |urls| == 0 then []
    else (if isValidUrl(urls[0]) then [urls[0]] else []) + ValidUrls(urls[1..], isValidUrl)
  }

  /** The filter keeps the whole list exactly when every entry is valid, and then it is the
      list itself, order and duplicates included. */
  lemma {:induction false} ValidUrlsAllOrNothing(urls: seq<string>, isValidUrl: string -> bool)
    ensures |ValidUrls(urls, isValidUrl)| == |urls| <==> forall i :: 0 <= i < |urls| ==> isValidUrl(urls[i])
    ensures (forall i :: 0 <= i < |urls| ==> isValidUrl(urls[i])) ==> ValidUrls(urls, isValidUrl) == urls
    decreases |urls|
  {
    if |urls| > 0 {
      ValidUrlsAllOrNothing(urls[1..], isValidUrl);
      if !isValidUrl(urls[0]) {
        assert |ValidUrls(urls[1..], isValidUrl)| <= |urls| - 1;
      }
      if forall i :: 0 <= i < |urls| ==> isValidUrl(urls[i]) {
        assert forall i :: 0 <= i < |urls[1..]| ==> isValidUrl(urls[1..][i]) by {
          forall i | 0 <= i < |urls[1..]| ensures isValidUrl(urls[1..][i]) {
            assert urls[1..][i] == urls[i + 1];
          }
        }
        assert urls == [urls[0]] + urls[1..];
      }
      if forall i :: 0 <= i < |urls[1..]| ==> isValidUrl(urls[1..][i]) {
        if isValidUrl(urls[0]) {
          forall i | 0 <= i < |urls| ensures isValidUrl(urls[i]) {
            if i > 0 {
              assert urls[i] == urls[1..][i - 1];
            }
          }
        }
      }
    }
  }

  /** `${key}=${value}`. */
  function EnvLine(key: string, value: string): string {
    key + "=" + value
  }

  /** `lines.findIndex(line => line.startsWith(`${key}=`))`. */
  function KeyIndex(lines: seq<string>, key: string): (k: int)
    ensures -1 <= k < |lines|
    ensures k >= 0 ==> StartsWith(lines[k], key + "=")
    ensures forall j :: 0 <= j < |lines| && (k < 0 || j < k) ==> !StartsWith(lines[j], key + "=")
    decreases |lines|
  {
    if |lines| == 0 then -1
    else if StartsWith(lines[0], key + "=") then 0
    else
      var k := KeyIndex(lines[1..], key);
      if k < 0 then -1 else k + 1
  }

  /** The first line starting with `key=` is the one `KeyIndex` finds. */
  lemma KeyIndexIs(lines: seq<string>, key: string, k: nat)
    requires k < |lines| && StartsWith(lines[k], key + "=")
    requires forall j :: 0 <= j < k ==> !StartsWith(lines[j], key + "=")
    ensures KeyIndex(lines, key) == k
  {
  }

  /** The line edit of `updateEnvFile`: replace the first `key=` line, or append one. */
  function EditLines(lines: seq<string>, key: string, value: string): (r: seq<string>)
    ensures KeyIndex(lines, key) >= 0 ==>
      && |r| == |lines|
      && r[KeyIndex(lines, key)] == EnvLine(key, value)
      && forall j :: 0 <= j < |lines| && j != KeyIndex(lines, key) ==> r[j] == lines[j]
    ensures KeyIndex(lines, key) < 0 ==> |r| == |lines| + 1 && r[..|lines|] == lines && r[|lines|] == EnvLine(key, value)
  {
    var k := KeyIndex(lines, key);
    if k >= 0 then lines[k := EnvLine(key, value)] else lines + [EnvLine(key, value)]
  }

  /** Editing the lines twice with the same key and value is editing them once. */
  lemma EditLinesIdempotent(lines: seq<string>, key: string, value: string)
    ensures EditLines(EditLines(lines, key, value), key, value) == EditLines(lines, key, value)
  {
    var once := EditLines(lines, key, value);
    var k := KeyIndex(lines, key);
    var line := EnvLine(key, value);
    assert StartsWith(line, key + "=") by {
      assert line[..|key + "="|] == key + "=";
    }
    if k >= 0 {
      KeyIndexIs(once, key, k);
    } else {
      KeyIndexIs(once, key, |lines|);
    }
  }

  /** The `.env` text after `updateEnvFile(key, value)`. A file with no `key=` line keeps its
      text and gains the line at its end, after a newline; `EditEnvLines` describes the
      replacement. */
  function EditEnv(content: string, key: string, value: string): (r: string)
    ensures KeyIndex(Split(content, '\n'), key) < 0 ==> r == content + "\n" + EnvLine(key, value)
  {
    var lines := Split(content, '\n');
    if KeyIndex(lines, key) < 0 then
      JoinSnoc(lines, EnvLine(key, value), '\n');
      JoinSplit(content, '\n');
      Join(EditLines(lines, key, value), '\n')
    else
      Join(EditLines(lines, key, value), '\n')
  }

  /** Seen as lines, the rewritten file has the first `key=` line replaced and the others
      unchanged, or the new line appended when there was none; with no newline in the key and
      value, rewriting again changes nothing. */
  lemma {:induction false} EditEnvLines(content: string, key: string, value: string)
    requires '\n' !in key && '\n' !in value
    ensures var before := Split(content, '\n');
      var after := Split(EditEnv(content, key, value), '\n');
      var k := KeyIndex(before, key);
      && (k >= 0 ==> |after| == |before| && after[k] == EnvLine(key, value)
                     && forall j :: 0 <= j < |before| && j != k ==> after[j] == before[j])
      && (k < 0 ==> after == before + [EnvLine(key, value)])
    ensures EditEnv(EditEnv(content, key, value), key, value) == EditEnv(content, key, value)
  {
    var before := Split(content, '\n');
    var edited := EditLines(before, key, value);
    var line := EnvLine(key, value);
    assert '\n' !in line by {
      assert line == key + ("=" + value);
    }
    assert forall i :: 0 <= i < |edited| ==> '\n' !in edited[i] by {
      forall i | 0 <= i < |edited| ensures '\n' !in edited[i] {
        if edited[i] != line {
          assert i < |before|;
        }
      }
    }
    SplitJoin(edited, '\n');
    if KeyIndex(before, key) < 0 {
      assert edited == before + [line];
    }
    EditLinesIdempotent(before, key, value);
  }

  /** A value with a newline breaks the rewrite: its tail becomes a line of its own, which
      the next rewrite keeps, so every save of the same value adds one more line. */
  lemma EditEnvNewlineValueGrows()
    ensures EditEnv("", "K", "a\nb") == "\nK=a\nb"
    ensures EditEnv("\nK=a\nb", "K", "a\nb") == "\nK=a\nb\nb"
  {
    assert Split("", '\n') == [""];
    assert !StartsWith("", "K=");
    assert KeyIndex([""], "K") < 0;
    SampleLines();
    SampleEdit();
  }

  /** The file `"\nK=a\nb"` reads back as the lines `""`, `"K=a"` and `"b"`. */
  lemma SampleLines()
    ensures Split("\nK=a\nb", '\n') == ["", "K=a", "b"]
  {
    var lines := ["", "K=a", "b"];
    assert Join(lines, '\n') == "\nK=a\nb" by {
      assert Join(lines[2..], '\n') == "b";
      assert Join(lines[1..], '\n') == "K=a" + "\n" + "b";
    }
    assert forall i :: 0 <= i < |lines| ==> '\n' !in lines[i] by {
      assert '\n' !in lines[1] by { assert lines[1] == ['K', '=', 'a']; }
    }
    SplitJoin(lines, '\n');
  }

  /** Rewriting `K` in those lines keeps the stray `"b"` line after the new one. */
  lemma SampleEdit()
    ensures Join(EditLines(["", "K=a", "b"], "K", "a\nb"), '\n') == "\nK=a\nb\nb"
  {
    var lines := ["", "K=a", "b"];
    assert StartsWith(lines[1], "K=") by { assert lines[1][..2] == "K="; }
    KeyIndexIs(lines, "K", 1);
    var edited := ["", "K=a\nb", "b"];
    assert EnvLine("K", "a\nb") == "K=a\nb";
    assert lines[1 := "K=a\nb"] == edited;
    assert EditLines(lines, "K", "a\nb") == edited;
    assert Join(edited, '\n') == "\nK=a\nb\nb" by {
      assert Join(edited[2..], '\n') == "b";
      assert Join(edited[1..], '\n') == "K=a\nb" + "\n" + "b";
    }
  }

  /** `WebhookController`. The configuration and the `.env` file are shared objects. */
  class WebhookController {
    const webhookService: WebhookService
    const config: Config
    const envFile: EnvFile

    constructor (webhookService: WebhookService, config: Config, envFile: EnvFile)
      ensures this.webhookService == webhookService && this.config == config && this.envFile == envFile
    {
      this.webhookService := webhookService;
      this.config := config;
      this.envFile := envFile;
    }

    /** `updateSettings`: all or nothing. A non-array or any invalid entry is answered 400 and
        changes nothing; otherwise the configuration takes the list as given, before the file
        is rewritten, and a failed rewrite is answered 500 with the new list kept. */
    method UpdateSettings(body: UrlsField, isValidUrl: string -> bool, io: FileIo) returns (resp: Response)
      modifies config, envFile
      ensures body.NotAnArray? ==>
        && resp == Response(400, Some("webhookUrls must be an array"))
        && config.webhookUrls == old(config.webhookUrls) && envFile.content == old(envFile.content)
      ensures body.UrlArray? && (exists i :: 0 <= i < |body.items| && !isValidUrl(body.items[i])) ==>
        && resp == Response(400, Some("All webhook URLs must be valid URLs"))
        && config.webhookUrls == old(config.webhookUrls) && envFile.content == old(envFile.content)
      ensures body.UrlArray? && (forall i :: 0 <= i < |body.items| ==> isValidUrl(body.items[i])) ==>
        && config.webhookUrls == body.items
        && var written := (old(envFile.content).None? || io.readOk) && io.writeOk;
           && (written ==>
                 && resp == Response(200, None)
                 && envFile.content == Some(EditEnv(old(envFile.content).GetOr(""), EnvKey, Join(body.items, ','))))
           && (!written ==>
                 && resp == Response(500, Some("Failed to update configuration file"))
                 && envFile.content == old(envFile.content))
    {
      if body.NotAnArray? {
        return Response(400, Some("webhookUrls must be an array"));
      }
      var webhookUrls := body.items;
      var validUrls := ValidUrls(webhookUrls, isValidUrl);
      ValidUrlsAllOrNothing(webhookUrls, isValidUrl);
      if |validUrls| != |webhookUrls| {
        return Response(400, Some("All webhook URLs must be valid URLs"));
      }
      config.webhookUrls := validUrls;
      var ok := UpdateEnvFile(EnvKey, Join(validUrls, ','), io);
      if !ok {
        return Response(500, Some("Failed to update configuration file"));
      }
      resp := Response(200, None);
    }

    /** `updateEnvFile`: read the file (empty when absent), edit its lines, write it back;
        a failed read or write leaves the file as it was and is reported. */
    method UpdateEnvFile(key: string, value: string, io: FileIo) returns (ok: bool)
      modifies envFile
      ensures ok <==> (old(envFile.content).None? || io.readOk) && io.writeOk
      ensures ok ==> envFile.content == Some(EditEnv(old(envFile.content).GetOr(""), key, value))
      ensures !ok ==> envFile.content == old(envFile.content)
    {
      var envContent := "";
      if envFile.content.Some? {
        if !io.readOk {
          return false;
        }
        envContent := envFile.content.value;
      }
      var lines := Split(envContent, '\n');
      var keyIndex := KeyIndex(lines, key);
      if keyIndex >= 0 {
        lines := lines[keyIndex := EnvLine(key, value)];
      } else {
        lines := lines + [EnvLine(key, value)];
      }
      if !io.writeOk {
        return false;
      }
      envFile.content := Some(Join(lines, '\n'));
      ok := true;
    }

    /** `testWebhook`: a missing, empty or non-string url and an unparsable one are answered 400
        without probing; otherwise the dispatcher's probe runs and its result is the answer. */
    method TestWebhook(body: UrlField, isValidUrl: string -> bool, now: int, outcome: PostOutcome)
      returns (resp: Response, probe: Option<ProbeResult>)
      ensures !(body.Text? && body.text != "") ==> resp == Response(400, Some("URL is required")) && probe.None?
      ensures body.Text? && body.text != "" && !isValidUrl(body.text) ==>
        resp == Response(400, Some("Invalid URL format")) && probe.None?
      ensures body.Text? && body.text != "" && isValidUrl(body.text) ==>
        resp == Response(200, None) && probe == Some(ProbeFor(outcome))
    {
      if !body.Text? || body.text == "" {
        return Response(400, Some("URL is required")), None;
      }
      if !isValidUrl(body.text) {
        return Response(400, Some("Invalid URL format")), None;
      }
      var result, _ := webhookService.TestWebhook(body.text, now, outcome);
      resp, probe := Response(200, None), Some(result);
    }
  }
}
