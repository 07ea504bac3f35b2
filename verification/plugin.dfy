/** The plugin object and its `sum_url` handler: local storage as a set of paths, the
    notifications yielded so far, the temp-file step of the download, and the cleanup
    in the handler's finally block. */
module Plugin {
  import opened Results
  import opened Settings
  import opened Progress

  type Path = string

  const TempSuffix := ".m4a"

  /** A name the temporary-file module hands out for the audio file. */
  predicate IsTempName(p: Path) {
    |p| >= |TempSuffix| && p[|p| - |TempSuffix|..] == TempSuffix
  }

  /** The length of the longest path in a set (0 for none). */
  ghost function LongestLength(paths: set<Path>): (n: nat)
    ensures forall p :: p in paths ==> |p| <= n
    decreases paths
  {
    if paths == {} then 0
    else
      var p :| p in paths;
      var rest := LongestLength(paths - {p});
      if |p| > rest then |p| else rest
  }

  /** However full storage is, an unused temporary name exists. */
  lemma FreshTempNameExists(paths: set<Path>)
    ensures exists p :: p !in paths && IsTempName(p)
  {
    var p := seq(LongestLength(paths) + 1, _ => 't') + TempSuffix;
    assert p[|p| - |TempSuffix|..] == TempSuffix;
    assert IsTempName(p) && p !in paths;
  }

  class UrlSummarizerPlugin {
    const keys: Keys
    var files: set<Path>    // the paths that exist in local storage
    var sent: seq<string>   // the notifications yielded to the chat, oldest first

    /** Every plugin that exists has passed the configuration gate: its keys are all
        non-empty. */
    ghost predicate Valid()
      reads this
    {
      keys.openaiApiKey != "" && keys.difyApiKey != "" && keys.difyApiUrl != ""
    }

    constructor (keys: Keys, files: set<Path>)
      requires keys.openaiApiKey != "" && keys.difyApiKey != "" && keys.difyApiUrl != ""
      ensures Valid()
      ensures this.keys == keys && this.files == files && sent == []
    {
      this.keys := keys;
      this.files := files;
      sent := [];
    }

    /** Construction: a plugin exists only when the configuration gate accepts the
        environment, and then it holds exactly the keys read from it. */
    static method Load(env: Environment, files: set<Path>) returns (plugin: UrlSummarizerPlugin?)
      ensures plugin != null <==> Resolve(env).Success?
      ensures plugin != null ==> fresh(plugin) && plugin.Valid() && plugin.keys == Resolve(env).value
      ensures plugin != null ==> plugin.files == files && plugin.sent == []
    {
      var r := Resolve(env);
      if r.Failure? {
        return null;
      }
      plugin := new UrlSummarizerPlugin(r.value, files);
    }

    /** One `yield event.plain_result(...)`. */
    method Yield(message: string)
      modifies this`sent
      ensures sent == old(sent) + [message]
    {
      sent := sent + [message];
    }

    /** `tempfile.NamedTemporaryFile(suffix=".m4a", delete=False)`: an unused name ending
        in ".m4a" is created and kept, or the call raises and storage is unchanged. */
    method CreateTempFile(outcome: Outcome) returns (r: Result<Path, string>)
      modifies this`files
      ensures outcome.Fail? ==> r == Failure(outcome.error) && files == old(files)
      ensures outcome.Pass? ==> r.Success? && IsTempName(r.value) && r.value !in old(files)
      ensures outcome.Pass? ==> files == old(files) + {r.value}
    {
      if outcome.Fail? {
        return Failure(outcome.error);
      }
      FreshTempNameExists(files);
      var path: Path :| path !in files && IsTempName(path);
      files := files + {path};
      r := Success(path);
    }

    /** `_download_audio`: the temp file is made first and yt-dlp writes into it; its
        path is returned only when the download returns. `created` names the file this
        call left in storage, whether or not the download succeeded. */
    method DownloadAudio(url: string, tempFile: Outcome, download: Outcome)
      returns (r: Result<Path, string>, ghost created: Option<Path>)
      modifies this`files
      ensures created.Some? <==> tempFile.Pass?
      ensures created.Some? ==> IsTempName(created.value) && created.value !in old(files)
      ensures files == old(files) + (if created.Some? then {created.value} else {})
      ensures tempFile.Fail? ==> r == Failure(tempFile.error)
      ensures tempFile.Pass? && download.Fail? ==> r == Failure(download.error)
      ensures tempFile.Pass? && download.Pass? ==> r == Success(created.value)
    {
      var temp := CreateTempFile(tempFile);
      if temp.Failure? {
        return Failure(temp.error), None;
      }
      created := Some(temp.value);
      if download.Fail? {
        return Failure(download.error), created;
      }
      r := Success(temp.value);
    }

    /** The finally block: the recorded path, when there is one and it exists, is removed;
        a removal that raises is swallowed and leaves storage as it was. */
    method Cleanup(audioPath: Option<Path>, removal: Outcome)
      modifies this`files
      ensures (audioPath.Some? && audioPath.value != "" && audioPath.value in old(files) && removal.Pass?) ==>
                files == old(files) - {audioPath.value}
      ensures !(audioPath.Some? && audioPath.value != "" && audioPath.value in old(files) && removal.Pass?) ==>
                files == old(files)
    {
      if audioPath.Some? && audioPath.value != "" && audioPath.value in files {
        if removal.Pass? {
          files := files - {audioPath.value};
        }
      }
    }

    /** The `sum_url` handler. The notifications are those of `Notifications(st)`; the
        temp file is removed exactly when the download returned its path and the removal
        succeeded; nothing else in storage is created or removed. */
    method SummarizeUrl(url: string, st: Stages) returns (ghost created: Option<Path>)
      requires Valid()
      modifies this`files, this`sent
      ensures sent == old(sent) + Notifications(st)
      ensures created.Some? <==> st.tempFile.Pass?
      ensures created.Some? ==> IsTempName(created.value) && created.value !in old(files)
      ensures st.tempFile.Fail? ==> files == old(files)
      ensures st.tempFile.Pass? && st.download.Pass? && st.removal.Pass? ==> files == old(files)
      ensures st.tempFile.Pass? && st.download.Pass? && st.removal.Pass? ==> created.value !in files
      ensures st.tempFile.Pass? && st.download.Pass? && st.removal.Fail? ==> files == old(files) + {created.value}
      ensures st.tempFile.Pass? && st.download.Fail? ==> files == old(files) + {created.value}
    {
      var audioPath: Option<Path> := None;
      var raised: Option<string> := None;
      Yield(Received);
      var downloaded;
      downloaded, created := DownloadAudio(url, st.tempFile, st.download);
      if downloaded.Failure? {
        raised := Some(downloaded.error);
      } else {
        audioPath := Some(downloaded.value);
        Yield(Downloaded);
        if st.transcript.Failure? {
          raised := Some(st.transcript.error);
        } else {
          Yield(Transcribed);
          if st.summary.Failure? {
            raised := Some(st.summary.error);
          } else {
            Yield(SummaryNotice(st.summary.value));
          }
        }
      }
      if raised.Some? {
        Yield(ErrorNotice(raised.value));
      }
      Cleanup(audioPath, st.removal);
    }
  }

  const ScenarioKeys := Keys("sk-openai", "app-dify", "https://dify.example/v1/workflows/run")

  /** The download-failure scenario: the run yields the first progress message and one
      error, and the temp file made before the download is still in storage. */
  method DownloadFailureLeavesTempFile()
  {
    var plugin := new UrlSummarizerPlugin(ScenarioKeys, {});
    var st := Stages(Pass, Fail("unsupported URL"), Success("hello world"), Success("greeting"), Pass);
    var created := plugin.SummarizeUrl("https://example.com/video", st);
    assert plugin.sent == [Received, ErrorNotice("unsupported URL")];
    assert plugin.files == {created.value} && IsTempName(created.value);
  }

  /** The happy-path scenario: four notifications, ending in the summary, and storage
      as it was before the run. */
  method HappyPathRemovesTempFile(files: set<Path>)
  {
    var plugin := new UrlSummarizerPlugin(ScenarioKeys, files);
    var st := Stages(Pass, Pass, Success("hello world"), Success("greeting"), Pass);
    var created := plugin.SummarizeUrl("https://example.com/video", st);
    assert plugin.sent == [Received, Downloaded, Transcribed, SummaryNotice("greeting")];
    assert plugin.files == files;
  }
}
