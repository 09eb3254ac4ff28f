/** The likes endpoints: the liked-jobs listing URL and the per-job like URL. */
module Likes {
  import opened Wrappers

  const LikedJobsUrl: string := "https://www.midjourney.com/api/pg/user-likes"

  const LikeUrlPrefix: string := "https://www.midjourney.com/api/jobs/"
  const LikeUrlSuffix: string := "/like"

  /** `likeJobUrl`: the job id between the fixed prefix and `/like`. */
  function LikeJobUrl(jobId: string): (url: string)
    ensures |url| == |LikeUrlPrefix| + |jobId| + |LikeUrlSuffix|
    ensures url[..|LikeUrlPrefix|] == LikeUrlPrefix
    ensures url[|url| - |LikeUrlSuffix|..] == LikeUrlSuffix
    ensures url[|LikeUrlPrefix|..|url| - |LikeUrlSuffix|] == jobId
  {
    LikeUrlPrefix + jobId + LikeUrlSuffix
  }

  /** Reads the job id back out of a like URL. */
  function JobIdOfLikeUrl(url: string): (jobId: Option<string>)
    ensures jobId.Some? ==> LikeJobUrl(jobId.value) == url
  {
    var n := |LikeUrlPrefix| + |LikeUrlSuffix|;
    if |url| >= n && url[..|LikeUrlPrefix|] == LikeUrlPrefix && url[|url| - |LikeUrlSuffix|..] == LikeUrlSuffix then
      var id := url[|LikeUrlPrefix|..|url| - |LikeUrlSuffix|];
      assert url == LikeUrlPrefix + id + LikeUrlSuffix by {
        assert url == url[..|LikeUrlPrefix|] + url[|LikeUrlPrefix|..|url| - |LikeUrlSuffix|] + url[|url| - |LikeUrlSuffix|..];
      }
      Some(id)
    else
      None
  }

  /** Every like URL is recognised, and yields the id it was built from. */
  lemma LikeUrlRoundTrip(jobId: string)
    ensures JobIdOfLikeUrl(LikeJobUrl(jobId)) == Some(jobId)
  {
  }

  /** Distinct job ids give distinct like URLs. */
  lemma LikeJobUrlInjective(a: string, b: string)
    ensures LikeJobUrl(a) == LikeJobUrl(b) <==> a == b
  {
    if LikeJobUrl(a) == LikeJobUrl(b) {
      LikeUrlRoundTrip(a);
      LikeUrlRoundTrip(b);
    }
  }
}
