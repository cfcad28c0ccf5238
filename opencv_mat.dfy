/** The part of `cv::Mat` the classifier's bookkeeping relies on: a matrix
    is its sequence of rows, `push_back` of a matrix appends its rows, and
    `release` leaves an empty matrix. Element types and column counts are
    not modelled. */
module OpenCvMat {

  type Row = seq<real>
  type Mat = seq<Row>

  /** `Mat::ones(n, 1, CV_32S)` as a label column. */
  function Ones(n: nat): (v: seq<int>)
    ensures |v| == n && forall i :: 0 <= i < n ==> v[i] == 1
  {
    seq(n, _ => 1)
  }

  /** `Mat::zeros(n, 1, CV_32S)` as a label column. */
  function Zeros(n: nat): (v: seq<int>)
    ensures |v| == n && forall i :: 0 <= i < n ==> v[i] == 0
  {
    seq(n, _ => 0)
  }

  lemma ZerosAppend(a: nat, b: nat)
    ensures Zeros(a) + Zeros(b) == Zeros(a + b)
  {
  }

  /** `m[key]` on a `std::map<std::string, cv::Mat>`, or `fs[key] >> mat`:
      the stored matrix, or an empty one when the key is absent. */
  function MatOrEmpty(m: map<string, Mat>, key: string): Mat {
    if key in m then m[key] else []
  }
}
