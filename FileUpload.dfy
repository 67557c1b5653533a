/**
 * The CSV upload form of components/FileUpload.tsx: which selected files are
 * accepted, the storage key built from the user id, a sanitised timestamp
 * and the file name, and the status fields around the upload call.
 *
 * The upload itself (`uploadData` of the Amplify storage library) is a
 * parameter: its outcome, and the progress last reported while it ran. The
 * ISO timestamp is a parameter too.
 */
module FileUpload {
  import opened Outcomes
  import opened Strings

  datatype File = File(name: string, fileType: string, size: nat)

  const NotCsvMessage := "Please select a CSV file."
  const NoFileMessage := "Please select a CSV file to upload."
  const SuccessMessage := "\U{2705} Upload successful!"
  const FailurePrefix := "\U{274C} Upload failed: "

  predicate EndsWith(s: string, suffix: string) {
    |suffix| <= |s| && s[|s| - |suffix|..] == suffix
  }

  /** The acceptance rule: the MIME type is exactly 'text/csv', or the name ends in '.csv' (case-sensitive). */
  predicate IsCsv(f: File) {
    f.fileType == "text/csv" || EndsWith(f.name, ".csv")
  }

  lemma AcceptanceExamples()
    ensures IsCsv(File("data.csv", "", 0))
    ensures IsCsv(File("data", "text/csv", 0))
    ensures !IsCsv(File("DATA.CSV", "application/vnd.ms-excel", 0))
  {
    assert "data.csv"[4..] == ".csv";
    assert "DATA.CSV"[4..] != ".csv" by { assert "DATA.CSV"[4..][1] == 'C'; }
  }

  /** `toISOString().replace(/[:.]/g, '-')`: every ':' and '.' becomes '-', everything else is kept. */
  function SanitizeTimestamp(ts: string): (r: string)
    ensures |r| == |ts|
    ensures ':' !in r && '.' !in r
    ensures forall i :: 0 <= i < |ts| ==> r[i] == ts[i] || (r[i] == '-' && (ts[i] == ':' || ts[i] == '.'))
  {
    seq(|ts|, i requires 0 <= i < |ts| => if ts[i] == ':' || ts[i] == '.' then '-' else ts[i])
  }

  /** `uploads/${userId}/${timestamp}_${file.name}` */
  function StorageKey(userId: string, timestamp: string, fileName: string): (key: string)
    ensures IsPrefix("uploads/" + userId + "/", key)
    ensures EndsWith(key, "_" + fileName)
  {
    var key := "uploads/" + userId + "/" + SanitizeTimestamp(timestamp) + "_" + fileName;
    assert key == ("uploads/" + userId + "/") + (SanitizeTimestamp(timestamp) + "_" + fileName);
    assert key == ("uploads/" + userId + "/" + SanitizeTimestamp(timestamp)) + ("_" + fileName);
    key
  }

  /**
   * When neither the user id, the timestamp nor the file name holds a '/',
   * the key reads back as its three path segments.
   */
  lemma StorageKeySegments(userId: string, timestamp: string, fileName: string)
    requires '/' !in userId && '/' !in timestamp && '/' !in fileName
    ensures Split(StorageKey(userId, timestamp, fileName), '/')
            == ["uploads", userId, SanitizeTimestamp(timestamp) + "_" + fileName]
  {
    var last := SanitizeTimestamp(timestamp) + "_" + fileName;
    var parts := ["uploads", userId, last];
    assert Join(parts, '/') == "uploads" + ['/'] + (userId + ['/'] + last) by {
      assert parts[1..] == [userId, last];
      assert parts[1..][1..] == [last];
      assert Join([last], '/') == last;
      assert Join([userId, last], '/') == userId + ['/'] + Join([userId, last][1..], '/');
      assert [userId, last][1..] == [last];
    }
    assert StorageKey(userId, timestamp, fileName) == Join(parts, '/');
    var s := SanitizeTimestamp(timestamp);
    assert '/' !in s by {
      forall i | 0 <= i < |s| ensures s[i] != '/' {
        assert timestamp[i] in timestamp;
      }
    }
    assert '/' !in last by {
      forall i | 0 <= i < |last| ensures last[i] != '/' {
        if i < |s| { assert last[i] == s[i]; }
        else if i > |s| { assert last[i] == fileName[i - |s| - 1]; }
      }
    }
    forall k | 0 <= k < |parts| ensures '/' !in parts[k] {
      if k == 0 {
        forall i | 0 <= i < |"uploads"| ensures "uploads"[i] != '/' {}
      }
    }
    SplitJoin(parts, '/');
  }

  class FileUploader {
    const userId: string
    var file: Option<File>
    var uploading: bool
    var progress: int
    var message: string

    constructor (userId: string)
      ensures this.userId == userId
      ensures file == None && !uploading && progress == 0 && message == ""
    {
      this.userId := userId;
      file := None;
      uploading := false;
      progress := 0;
      message := "";
    }

    /**
     * `handleFileSelect`: the first selected file is taken when it is a CSV
     * file; otherwise the message says so and the earlier choice stays.
     */
    method HandleFileSelect(files: seq<File>)
      modifies this`file, this`message
      ensures files == [] ==> file == old(file) && message == old(message)
      ensures files != [] && IsCsv(files[0]) ==> file == Some(files[0]) && message == old(message)
      ensures files != [] && !IsCsv(files[0]) ==> file == old(file) && message == NotCsvMessage
    {
      if |files| > 0 {
        var selected := files[0];
        if IsCsv(selected) {
          file := Some(selected);
        } else {
          message := NotCsvMessage;
        }
      }
    }

    /** The upload button: disabled without a file or while uploading. */
    function UploadDisabled(): (disabled: bool)
      reads this
      ensures disabled <==> file.None? || uploading
    {
      file.None? || uploading
    }

    /**
     * `handleUpload`. Without a file only the message changes and nothing is
     * uploaded. Otherwise the returned request is the upload that was
     * started, with the status the form showed while it ran (uploading,
     * progress 0, no message); afterwards `uploading` is false again and
     * the message reports the outcome.
     */
    method HandleUpload(timestamp: string, outcome: Call<()>, progressDuring: int)
      returns (request: Option<UploadRequest>)
      modifies this`uploading, this`progress, this`message
      ensures old(file).None? ==>
                request == None && message == NoFileMessage
                && uploading == old(uploading) && progress == old(progress)
      ensures old(file).Some? ==>
                request == Some(UploadRequest(StorageKey(userId, timestamp, file.value.name), file.value,
                                              file.value.fileType, true, 0, ""))
                && !uploading
      ensures old(file).Some? && outcome.Returned? ==> progress == 100 && message == SuccessMessage
      ensures old(file).Some? && outcome.Threw? ==>
                progress == progressDuring && message == FailurePrefix + outcome.message
    {
      if file.None? {
        message := NoFileMessage;
        return None;
      }
      uploading := true;
      progress := 0;
      message := "";
      var key := StorageKey(userId, timestamp, file.value.name);
      request := Some(UploadRequest(key, file.value, file.value.fileType, uploading, progress, message));
      if outcome.Returned? {
        progress := 100;
        message := SuccessMessage;
      } else {
        progress := progressDuring;
        message := FailurePrefix + outcome.message;
      }
      uploading := false;
    }
  }

  /** The `uploadData` request, and the form's status while it was in flight. */
  datatype UploadRequest = UploadRequest(key: string, data: File, contentType: string,
                                         uploadingDuring: bool, progressDuring: int, messageDuring: string)
}
