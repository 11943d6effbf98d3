/** The digests of the empty message and of "abc" in the test suite of RFC 1321 (Appendix A.5), step by step. */
module DigestVectors {
  import opened Bytes
  import opened Md5

  // ---- one-block messages --------------------------------------------------------

  // The message words of a block whose message fits the first word.
  ghost predicate ShortMessage(block: seq<byte>, first: bv32, bits: bv32) {
    |block| == 64 && forall k :: 0 <= k < 16 ==> LittleEndian(block, 4 * k) == if k == 0 then first else if k == 14 then bits else 0
  }

  // One step on known registers.
  lemma Turn(block: seq<byte>, first: bv32, bits: bv32, i: nat, a: bv32, b: bv32, c: bv32, d: bv32, row: Row, x: bv32, r: bv32)
    requires ShortMessage(block, first, bits) && i < 64 && row.word < 16 && row.shift < 32 && Listing(i) == row
    requires Steps(i, INITIAL, block) == Chain(a, b, c, d)
    requires x == (if row.word == 0 then first else if row.word == 14 then bits else 0)
    requires r == RfcStep(i / 16, a, b, c, d, x, row.constant, row.shift)
    ensures Steps(i + 1, INITIAL, block) == Chain(d, r, b, c)
  {
    StepIsRfcStep(row, i / 16, Chain(a, b, c, d), block);
    hide Step;
    hide RfcStep;
    hide Listing;
    assert LittleEndian(block, 4 * row.word) == if row.word == 0 then first else if row.word == 14 then bits else 0;
    hide LittleEndian;
  }

  lemma NoSteps(block: seq<byte>)
    requires |block| == 64
    ensures Steps(0, INITIAL, block) == Chain(0x67452301, 0xefcdab89, 0x98badcfe, 0x10325476)
  {
  }

  // The padding of a message of at most three bytes, byte by byte.
  lemma PaddedShort(m: seq<byte>, length: byte)
    requires |m| <= 3 && LengthBytes(|m|) == [length, 0, 0, 0, 0, 0, 0, 0] && ZeroCount(|m|) == 55 - |m|
    ensures var p := m + Padding(|m|);
      && |p| == 64 && p[|m|] == 0x80 && p[56] == length
      && (forall i :: 0 <= i < |m| ==> p[i] == m[i])
      && forall i :: |m| < i < 64 && i != 56 ==> p[i] == 0
  {
    hide LengthBytes;
    hide ZeroCount;
  }

  lemma SmallBytes()
    ensures ByteOf(0) == 0 && ByteOf(24) == 24
  {
  }

  lemma SmallWords()
    ensures Le32(0) == [0, 0, 0, 0] && Le32(24) == [24, 0, 0, 0]
  {
    hide ByteOf;
    SmallBytes();
  }

  lemma Lengths()
    ensures LengthBytes(0) == [0, 0, 0, 0, 0, 0, 0, 0] && LengthBytes(3) == [24, 0, 0, 0, 0, 0, 0, 0]
    ensures ZeroCount(0) == 55 && ZeroCount(3) == 52
  {
    hide Le32;
    SmallWords();
  }

  lemma OneBlock(m: seq<byte>)
    requires |m + Padding(|m|)| == 64
    ensures Digest(m) == ChainBytes(Transform(INITIAL, m + Padding(|m|)))
  {
    var block := m + Padding(|m|);
    hide Padding;
    FoldOneBlock(INITIAL, 0, [], block);
    hide Transform;
    assert [] + block == block;
  }

  // The listing, eight rows at a time.
  lemma Rows1()
    ensures Listing(0) == Row(0, 0xd76aa478, 7)
    ensures Listing(1) == Row(1, 0xe8c7b756, 12)
    ensures Listing(2) == Row(2, 0x242070db, 17)
    ensures Listing(3) == Row(3, 0xc1bdceee, 22)
    ensures Listing(4) == Row(4, 0xf57c0faf, 7)
    ensures Listing(5) == Row(5, 0x4787c62a, 12)
    ensures Listing(6) == Row(6, 0xa8304613, 17)
    ensures Listing(7) == Row(7, 0xfd469501, 22)
  {
  }

  lemma Rows2()
    ensures Listing(8) == Row(8, 0x698098d8, 7)
    ensures Listing(9) == Row(9, 0x8b44f7af, 12)
    ensures Listing(10) == Row(10, 0xffff5bb1, 17)
    ensures Listing(11) == Row(11, 0x895cd7be, 22)
    ensures Listing(12) == Row(12, 0x6b901122, 7)
    ensures Listing(13) == Row(13, 0xfd987193, 12)
    ensures Listing(14) == Row(14, 0xa679438e, 17)
    ensures Listing(15) == Row(15, 0x49b40821, 22)
  {
  }

  lemma Rows3()
    ensures Listing(16) == Row(1, 0xf61e2562, 5)
    ensures Listing(17) == Row(6, 0xc040b340, 9)
    ensures Listing(18) == Row(11, 0x265e5a51, 14)
    ensures Listing(19) == Row(0, 0xe9b6c7aa, 20)
    ensures Listing(20) == Row(5, 0xd62f105d, 5)
    ensures Listing(21) == Row(10, 0x02441453, 9)
    ensures Listing(22) == Row(15, 0xd8a1e681, 14)
    ensures Listing(23) == Row(4, 0xe7d3fbc8, 20)
  {
  }

  lemma Rows4()
    ensures Listing(24) == Row(9, 0x21e1cde6, 5)
    ensures Listing(25) == Row(14, 0xc33707d6, 9)
    ensures Listing(26) == Row(3, 0xf4d50d87, 14)
    ensures Listing(27) == Row(8, 0x455a14ed, 20)
    ensures Listing(28) == Row(13, 0xa9e3e905, 5)
    ensures Listing(29) == Row(2, 0xfcefa3f8, 9)
    ensures Listing(30) == Row(7, 0x676f02d9, 14)
    ensures Listing(31) == Row(12, 0x8d2a4c8a, 20)
  {
  }

  lemma Rows5()
    ensures Listing(32) == Row(5, 0xfffa3942, 4)
    ensures Listing(33) == Row(8, 0x8771f681, 11)
    ensures Listing(34) == Row(11, 0x6d9d6122, 16)
    ensures Listing(35) == Row(14, 0xfde5380c, 23)
    ensures Listing(36) == Row(1, 0xa4beea44, 4)
    ensures Listing(37) == Row(4, 0x4bdecfa9, 11)
    ensures Listing(38) == Row(7, 0xf6bb4b60, 16)
    ensures Listing(39) == Row(10, 0xbebfbc70, 23)
  {
  }

  lemma Rows6()
    ensures Listing(40) == Row(13, 0x289b7ec6, 4)
    ensures Listing(41) == Row(0, 0xeaa127fa, 11)
    ensures Listing(42) == Row(3, 0xd4ef3085, 16)
    ensures Listing(43) == Row(6, 0x04881d05, 23)
    ensures Listing(44) == Row(9, 0xd9d4d039, 4)
    ensures Listing(45) == Row(12, 0xe6db99e5, 11)
    ensures Listing(46) == Row(15, 0x1fa27cf8, 16)
    ensures Listing(47) == Row(2, 0xc4ac5665, 23)
  {
  }

  lemma Rows7()
    ensures Listing(48) == Row(0, 0xf4292244, 6)
    ensures Listing(49) == Row(7, 0x432aff97, 10)
    ensures Listing(50) == Row(14, 0xab9423a7, 15)
    ensures Listing(51) == Row(5, 0xfc93a039, 21)
    ensures Listing(52) == Row(12, 0x655b59c3, 6)
    ensures Listing(53) == Row(3, 0x8f0ccc92, 10)
    ensures Listing(54) == Row(10, 0xffeff47d, 15)
    ensures Listing(55) == Row(1, 0x85845dd1, 21)
  {
  }

  lemma Rows8()
    ensures Listing(56) == Row(8, 0x6fa87e4f, 6)
    ensures Listing(57) == Row(15, 0xfe2ce6e0, 10)
    ensures Listing(58) == Row(6, 0xa3014314, 15)
    ensures Listing(59) == Row(13, 0x4e0811a1, 21)
    ensures Listing(60) == Row(4, 0xf7537e82, 6)
    ensures Listing(61) == Row(11, 0xbd3af235, 10)
    ensures Listing(62) == Row(2, 0x2ad7d2bb, 15)
    ensures Listing(63) == Row(9, 0xeb86d391, 21)
  {
  }

  // ---- the digest of the empty message ----------------------------------------

  lemma EmptyValues1()
    ensures RfcStep(0, 0x67452301, 0xefcdab89, 0x98badcfe, 0x10325476, 0x80, 0xd76aa478, 7) == 0xa5202774
    ensures RfcStep(0, 0x10325476, 0xa5202774, 0xefcdab89, 0x98badcfe, 0x0, 0xe8c7b756, 12) == 0xf59592dd
    ensures RfcStep(0, 0x98badcfe, 0xf59592dd, 0xa5202774, 0xefcdab89, 0x0, 0x242070db, 17) == 0xe7f06b23
    ensures RfcStep(0, 0xefcdab89, 0xe7f06b23, 0xf59592dd, 0xa5202774, 0x0, 0xc1bdceee, 22) == 0x1b163203
    ensures RfcStep(0, 0xa5202774, 0x1b163203, 0xe7f06b23, 0xf59592dd, 0x0, 0xf57c0faf, 7) == 0x32033344
    ensures RfcStep(0, 0xf59592dd, 0x32033344, 0x1b163203, 0xe7f06b23, 0x0, 0x4787c62a, 12) == 0x2f35d494
    ensures RfcStep(0, 0xe7f06b23, 0x2f35d494, 0x32033344, 0x1b163203, 0x0, 0xa8304613, 17) == 0xf5b158db
    ensures RfcStep(0, 0x1b163203, 0xf5b158db, 0x2f35d494, 0x32033344, 0x0, 0xfd469501, 22) == 0x9bc13ce9
    ensures RfcStep(0, 0x32033344, 0x9bc13ce9, 0xf5b158db, 0x2f35d494, 0x0, 0x698098d8, 7) == 0x3893b991
    ensures RfcStep(0, 0x2f35d494, 0x3893b991, 0x9bc13ce9, 0xf5b158db, 0x0, 0x8b44f7af, 12) == 0xfce4a312
    ensures RfcStep(0, 0xf5b158db, 0xfce4a312, 0x3893b991, 0x9bc13ce9, 0x0, 0xffff5bb1, 17) == 0xe1ef0576
    ensures RfcStep(0, 0x9bc13ce9, 0xe1ef0576, 0xfce4a312, 0x3893b991, 0x0, 0x895cd7be, 22) == 0x70768a29
    ensures RfcStep(0, 0x3893b991, 0x70768a29, 0xe1ef0576, 0xfce4a312, 0x0, 0x6b901122, 7) == 0xf56c7cf1
    ensures RfcStep(0, 0xfce4a312, 0xf56c7cf1, 0x70768a29, 0xe1ef0576, 0x0, 0xfd987193, 12) == 0x374943a7
    ensures RfcStep(0, 0xe1ef0576, 0x374943a7, 0xf56c7cf1, 0x70768a29, 0x0, 0xa679438e, 17) == 0x5aa53f75
    ensures RfcStep(0, 0x70768a29, 0x5aa53f75, 0x374943a7, 0xf56c7cf1, 0x0, 0x49b40821, 22) == 0xd6819c6a
  {
  }

  lemma Empty1(block: seq<byte>)
    requires ShortMessage(block, 0x00000080, 0x00000000) && Steps(0, INITIAL, block) == Chain(0x67452301, 0xefcdab89, 0x98badcfe, 0x10325476)
    ensures Steps(16, INITIAL, block) == Chain(0xf56c7cf1, 0xd6819c6a, 0x5aa53f75, 0x374943a7)
  {
    Rows1();
    Rows2();
    EmptyValues1();
    hide ShortMessage;
    hide Steps;
    hide RfcStep;
    hide Listing;
    Turn(block, 0x00000080, 0x00000000, 0, 0x67452301, 0xefcdab89, 0x98badcfe, 0x10325476, Row(0, 0xd76aa478, 7), 0x80, 0xa5202774);
    Turn(block, 0x00000080, 0x00000000, 1, 0x10325476, 0xa5202774, 0xefcdab89, 0x98badcfe, Row(1, 0xe8c7b756, 12), 0x0, 0xf59592dd);
    Turn(block, 0x00000080, 0x00000000, 2, 0x98badcfe, 0xf59592dd, 0xa5202774, 0xefcdab89, Row(2, 0x242070db, 17), 0x0, 0xe7f06b23);
    Turn(block, 0x00000080, 0x00000000, 3, 0xefcdab89, 0xe7f06b23, 0xf59592dd, 0xa5202774, Row(3, 0xc1bdceee, 22), 0x0, 0x1b163203);
    Turn(block, 0x00000080, 0x00000000, 4, 0xa5202774, 0x1b163203, 0xe7f06b23, 0xf59592dd, Row(4, 0xf57c0faf, 7), 0x0, 0x32033344);
    Turn(block, 0x00000080, 0x00000000, 5, 0xf59592dd, 0x32033344, 0x1b163203, 0xe7f06b23, Row(5, 0x4787c62a, 12), 0x0, 0x2f35d494);
    Turn(block, 0x00000080, 0x00000000, 6, 0xe7f06b23, 0x2f35d494, 0x32033344, 0x1b163203, Row(6, 0xa8304613, 17), 0x0, 0xf5b158db);
    Turn(block, 0x00000080, 0x00000000, 7, 0x1b163203, 0xf5b158db, 0x2f35d494, 0x32033344, Row(7, 0xfd469501, 22), 0x0, 0x9bc13ce9);
    Turn(block, 0x00000080, 0x00000000, 8, 0x32033344, 0x9bc13ce9, 0xf5b158db, 0x2f35d494, Row(8, 0x698098d8, 7), 0x0, 0x3893b991);
    Turn(block, 0x00000080, 0x00000000, 9, 0x2f35d494, 0x3893b991, 0x9bc13ce9, 0xf5b158db, Row(9, 0x8b44f7af, 12), 0x0, 0xfce4a312);
    Turn(block, 0x00000080, 0x00000000, 10, 0xf5b158db, 0xfce4a312, 0x3893b991, 0x9bc13ce9, Row(10, 0xffff5bb1, 17), 0x0, 0xe1ef0576);
    Turn(block, 0x00000080, 0x00000000, 11, 0x9bc13ce9, 0xe1ef0576, 0xfce4a312, 0x3893b991, Row(11, 0x895cd7be, 22), 0x0, 0x70768a29);
    Turn(block, 0x00000080, 0x00000000, 12, 0x3893b991, 0x70768a29, 0xe1ef0576, 0xfce4a312, Row(12, 0x6b901122, 7), 0x0, 0xf56c7cf1);
    Turn(block, 0x00000080, 0x00000000, 13, 0xfce4a312, 0xf56c7cf1, 0x70768a29, 0xe1ef0576, Row(13, 0xfd987193, 12), 0x0, 0x374943a7);
    Turn(block, 0x00000080, 0x00000000, 14, 0xe1ef0576, 0x374943a7, 0xf56c7cf1, 0x70768a29, Row(14, 0xa679438e, 17), 0x0, 0x5aa53f75);
    Turn(block, 0x00000080, 0x00000000, 15, 0x70768a29, 0x5aa53f75, 0x374943a7, 0xf56c7cf1, Row(15, 0x49b40821, 22), 0x0, 0xd6819c6a);
  }

  lemma EmptyValues2()
    ensures RfcStep(1, 0xf56c7cf1, 0xd6819c6a, 0x5aa53f75, 0x374943a7, 0x0, 0xf61e2562, 5) == 0x1c7d7513
    ensures RfcStep(1, 0x374943a7, 0x1c7d7513, 0xd6819c6a, 0x5aa53f75, 0x0, 0xc040b340, 9) == 0x7bd57a3a
    ensures RfcStep(1, 0x5aa53f75, 0x7bd57a3a, 0x1c7d7513, 0xd6819c6a, 0x0, 0x265e5a51, 14) == 0xc095f13a
    ensures RfcStep(1, 0xd6819c6a, 0xc095f13a, 0x7bd57a3a, 0x1c7d7513, 0x80, 0xe9b6c7aa, 20) == 0xbd782e17
    ensures RfcStep(1, 0x1c7d7513, 0xbd782e17, 0xc095f13a, 0x7bd57a3a, 0x0, 0xd62f105d, 5) == 0x3d1e3e6c
    ensures RfcStep(1, 0x7bd57a3a, 0x3d1e3e6c, 0xbd782e17, 0xc095f13a, 0x0, 0x02441453, 9) == 0x68b7b3e3
    ensures RfcStep(1, 0xc095f13a, 0x68b7b3e3, 0x3d1e3e6c, 0xbd782e17, 0x0, 0xd8a1e681, 14) == 0xeb41643e
    ensures RfcStep(1, 0xbd782e17, 0xeb41643e, 0x68b7b3e3, 0x3d1e3e6c, 0x0, 0xe7d3fbc8, 20) == 0xe422531a
    ensures RfcStep(1, 0x3d1e3e6c, 0xe422531a, 0xeb41643e, 0x68b7b3e3, 0x0, 0x21e1cde6, 5) == 0x306ec122
    ensures RfcStep(1, 0x68b7b3e3, 0x306ec122, 0xe422531a, 0xeb41643e, 0x0, 0xc33707d6, 9) == 0xd28c77c2
    ensures RfcStep(1, 0xeb41643e, 0xd28c77c2, 0x306ec122, 0xe422531a, 0x0, 0xf4d50d87, 14) == 0xa3c663da
    ensures RfcStep(1, 0xe422531a, 0xa3c663da, 0xd28c77c2, 0x306ec122, 0x0, 0x455a14ed, 20) == 0xa0572807
    ensures RfcStep(1, 0x306ec122, 0xa0572807, 0xa3c663da, 0xd28c77c2, 0x0, 0xa9e3e905, 5) == 0x13707036
    ensures RfcStep(1, 0xd28c77c2, 0x13707036, 0xa0572807, 0xa3c663da, 0x0, 0xfcefa3f8, 9) == 0xae7813db
    ensures RfcStep(1, 0xa3c663da, 0xae7813db, 0x13707036, 0xa0572807, 0x0, 0x676f02d9, 14) == 0x1c31c384
    ensures RfcStep(1, 0xa0572807, 0x1c31c384, 0xae7813db, 0x13707036, 0x0, 0x8d2a4c8a, 20) == 0xa2205f1f
  {
  }

  lemma Empty2(block: seq<byte>)
    requires ShortMessage(block, 0x00000080, 0x00000000) && Steps(16, INITIAL, block) == Chain(0xf56c7cf1, 0xd6819c6a, 0x5aa53f75, 0x374943a7)
    ensures Steps(32, INITIAL, block) == Chain(0x13707036, 0xa2205f1f, 0x1c31c384, 0xae7813db)
  {
    Rows3();
    Rows4();
    EmptyValues2();
    hide ShortMessage;
    hide Steps;
    hide RfcStep;
    hide Listing;
    Turn(block, 0x00000080, 0x00000000, 16, 0xf56c7cf1, 0xd6819c6a, 0x5aa53f75, 0x374943a7, Row(1, 0xf61e2562, 5), 0x0, 0x1c7d7513);
    Turn(block, 0x00000080, 0x00000000, 17, 0x374943a7, 0x1c7d7513, 0xd6819c6a, 0x5aa53f75, Row(6, 0xc040b340, 9), 0x0, 0x7bd57a3a);
    Turn(block, 0x00000080, 0x00000000, 18, 0x5aa53f75, 0x7bd57a3a, 0x1c7d7513, 0xd6819c6a, Row(11, 0x265e5a51, 14), 0x0, 0xc095f13a);
    Turn(block, 0x00000080, 0x00000000, 19, 0xd6819c6a, 0xc095f13a, 0x7bd57a3a, 0x1c7d7513, Row(0, 0xe9b6c7aa, 20), 0x80, 0xbd782e17);
    Turn(block, 0x00000080, 0x00000000, 20, 0x1c7d7513, 0xbd782e17, 0xc095f13a, 0x7bd57a3a, Row(5, 0xd62f105d, 5), 0x0, 0x3d1e3e6c);
    Turn(block, 0x00000080, 0x00000000, 21, 0x7bd57a3a, 0x3d1e3e6c, 0xbd782e17, 0xc095f13a, Row(10, 0x02441453, 9), 0x0, 0x68b7b3e3);
    Turn(block, 0x00000080, 0x00000000, 22, 0xc095f13a, 0x68b7b3e3, 0x3d1e3e6c, 0xbd782e17, Row(15, 0xd8a1e681, 14), 0x0, 0xeb41643e);
    Turn(block, 0x00000080, 0x00000000, 23, 0xbd782e17, 0xeb41643e, 0x68b7b3e3, 0x3d1e3e6c, Row(4, 0xe7d3fbc8, 20), 0x0, 0xe422531a);
    Turn(block, 0x00000080, 0x00000000, 24, 0x3d1e3e6c, 0xe422531a, 0xeb41643e, 0x68b7b3e3, Row(9, 0x21e1cde6, 5), 0x0, 0x306ec122);
    Turn(block, 0x00000080, 0x00000000, 25, 0x68b7b3e3, 0x306ec122, 0xe422531a, 0xeb41643e, Row(14, 0xc33707d6, 9), 0x0, 0xd28c77c2);
    Turn(block, 0x00000080, 0x00000000, 26, 0xeb41643e, 0xd28c77c2, 0x306ec122, 0xe422531a, Row(3, 0xf4d50d87, 14), 0x0, 0xa3c663da);
    Turn(block, 0x00000080, 0x00000000, 27, 0xe422531a, 0xa3c663da, 0xd28c77c2, 0x306ec122, Row(8, 0x455a14ed, 20), 0x0, 0xa0572807);
    Turn(block, 0x00000080, 0x00000000, 28, 0x306ec122, 0xa0572807, 0xa3c663da, 0xd28c77c2, Row(13, 0xa9e3e905, 5), 0x0, 0x13707036);
    Turn(block, 0x00000080, 0x00000000, 29, 0xd28c77c2, 0x13707036, 0xa0572807, 0xa3c663da, Row(2, 0xfcefa3f8, 9), 0x0, 0xae7813db);
    Turn(block, 0x00000080, 0x00000000, 30, 0xa3c663da, 0xae7813db, 0x13707036, 0xa0572807, Row(7, 0x676f02d9, 14), 0x0, 0x1c31c384);
    Turn(block, 0x00000080, 0x00000000, 31, 0xa0572807, 0x1c31c384, 0xae7813db, 0x13707036, Row(12, 0x8d2a4c8a, 20), 0x0, 0xa2205f1f);
  }

  lemma EmptyValues3()
    ensures RfcStep(2, 0x13707036, 0xa2205f1f, 0x1c31c384, 0xae7813db, 0x0, 0xfffa3942, 4) == 0xdf63eaa1
    ensures RfcStep(2, 0xae7813db, 0xdf63eaa1, 0xa2205f1f, 0x1c31c384, 0x0, 0x8771f681, 11) == 0xc3689f5b
    ensures RfcStep(2, 0x1c31c384, 0xc3689f5b, 0xdf63eaa1, 0xa2205f1f, 0x0, 0x6d9d6122, 16) == 0x12f3e755
    ensures RfcStep(2, 0xa2205f1f, 0x12f3e755, 0xc3689f5b, 0xdf63eaa1, 0x0, 0xfde5380c, 23) == 0x004b6669
    ensures RfcStep(2, 0xdf63eaa1, 0x004b6669, 0x12f3e755, 0xc3689f5b, 0x0, 0xa4beea44, 4) == 0x5f7a9b2e
    ensures RfcStep(2, 0xc3689f5b, 0x5f7a9b2e, 0x004b6669, 0x12f3e755, 0x0, 0x4bdecfa9, 11) == 0xabc34e16
    ensures RfcStep(2, 0x12f3e755, 0xabc34e16, 0x5f7a9b2e, 0x004b6669, 0x0, 0xf6bb4b60, 16) == 0x91ca4cb7
    ensures RfcStep(2, 0x004b6669, 0x91ca4cb7, 0xabc34e16, 0x5f7a9b2e, 0x0, 0xbebfbc70, 23) == 0xc5dc8c15
    ensures RfcStep(2, 0x5f7a9b2e, 0xc5dc8c15, 0x91ca4cb7, 0xabc34e16, 0x0, 0x289b7ec6, 4) == 0x4497169d
    ensures RfcStep(2, 0xabc34e16, 0x4497169d, 0xc5dc8c15, 0x91ca4cb7, 0x80, 0xeaa127fa, 11) == 0x76fd93d4
    ensures RfcStep(2, 0x91ca4cb7, 0x76fd93d4, 0x4497169d, 0xc5dc8c15, 0x0, 0xd4ef3085, 16) == 0xfd95f243
    ensures RfcStep(2, 0xc5dc8c15, 0xfd95f243, 0x76fd93d4, 0x4497169d, 0x0, 0x04881d05, 23) == 0x0fe32453
    ensures RfcStep(2, 0x4497169d, 0x0fe32453, 0xfd95f243, 0x76fd93d4, 0x0, 0xd9d4d039, 4) == 0x3f55edfd
    ensures RfcStep(2, 0x76fd93d4, 0x3f55edfd, 0x0fe32453, 0xfd95f243, 0x0, 0xe6db99e5, 11) == 0x22a31f54
    ensures RfcStep(2, 0xfd95f243, 0x22a31f54, 0x3f55edfd, 0x0fe32453, 0x0, 0x1fa27cf8, 16) == 0x68d84ea2
    ensures RfcStep(2, 0x0fe32453, 0x68d84ea2, 0x22a31f54, 0x3f55edfd, 0x0, 0xc4ac5665, 23) == 0xca7d2dbd
  {
  }

  lemma Empty3(block: seq<byte>)
    requires ShortMessage(block, 0x00000080, 0x00000000) && Steps(32, INITIAL, block) == Chain(0x13707036, 0xa2205f1f, 0x1c31c384, 0xae7813db)
    ensures Steps(48, INITIAL, block) == Chain(0x3f55edfd, 0xca7d2dbd, 0x68d84ea2, 0x22a31f54)
  {
    Rows5();
    Rows6();
    EmptyValues3();
    hide ShortMessage;
    hide Steps;
    hide RfcStep;
    hide Listing;
    Turn(block, 0x00000080, 0x00000000, 32, 0x13707036, 0xa2205f1f, 0x1c31c384, 0xae7813db, Row(5, 0xfffa3942, 4), 0x0, 0xdf63eaa1);
    Turn(block, 0x00000080, 0x00000000, 33, 0xae7813db, 0xdf63eaa1, 0xa2205f1f, 0x1c31c384, Row(8, 0x8771f681, 11), 0x0, 0xc3689f5b);
    Turn(block, 0x00000080, 0x00000000, 34, 0x1c31c384, 0xc3689f5b, 0xdf63eaa1, 0xa2205f1f, Row(11, 0x6d9d6122, 16), 0x0, 0x12f3e755);
    Turn(block, 0x00000080, 0x00000000, 35, 0xa2205f1f, 0x12f3e755, 0xc3689f5b, 0xdf63eaa1, Row(14, 0xfde5380c, 23), 0x0, 0x004b6669);
    Turn(block, 0x00000080, 0x00000000, 36, 0xdf63eaa1, 0x004b6669, 0x12f3e755, 0xc3689f5b, Row(1, 0xa4beea44, 4), 0x0, 0x5f7a9b2e);
    Turn(block, 0x00000080, 0x00000000, 37, 0xc3689f5b, 0x5f7a9b2e, 0x004b6669, 0x12f3e755, Row(4, 0x4bdecfa9, 11), 0x0, 0xabc34e16);
    Turn(block, 0x00000080, 0x00000000, 38, 0x12f3e755, 0xabc34e16, 0x5f7a9b2e, 0x004b6669, Row(7, 0xf6bb4b60, 16), 0x0, 0x91ca4cb7);
    Turn(block, 0x00000080, 0x00000000, 39, 0x004b6669, 0x91ca4cb7, 0xabc34e16, 0x5f7a9b2e, Row(10, 0xbebfbc70, 23), 0x0, 0xc5dc8c15);
    Turn(block, 0x00000080, 0x00000000, 40, 0x5f7a9b2e, 0xc5dc8c15, 0x91ca4cb7, 0xabc34e16, Row(13, 0x289b7ec6, 4), 0x0, 0x4497169d);
    Turn(block, 0x00000080, 0x00000000, 41, 0xabc34e16, 0x4497169d, 0xc5dc8c15, 0x91ca4cb7, Row(0, 0xeaa127fa, 11), 0x80, 0x76fd93d4);
    Turn(block, 0x00000080, 0x00000000, 42, 0x91ca4cb7, 0x76fd93d4, 0x4497169d, 0xc5dc8c15, Row(3, 0xd4ef3085, 16), 0x0, 0xfd95f243);
    Turn(block, 0x00000080, 0x00000000, 43, 0xc5dc8c15, 0xfd95f243, 0x76fd93d4, 0x4497169d, Row(6, 0x04881d05, 23), 0x0, 0x0fe32453);
    Turn(block, 0x00000080, 0x00000000, 44, 0x4497169d, 0x0fe32453, 0xfd95f243, 0x76fd93d4, Row(9, 0xd9d4d039, 4), 0x0, 0x3f55edfd);
    Turn(block, 0x00000080, 0x00000000, 45, 0x76fd93d4, 0x3f55edfd, 0x0fe32453, 0xfd95f243, Row(12, 0xe6db99e5, 11), 0x0, 0x22a31f54);
    Turn(block, 0x00000080, 0x00000000, 46, 0xfd95f243, 0x22a31f54, 0x3f55edfd, 0x0fe32453, Row(15, 0x1fa27cf8, 16), 0x0, 0x68d84ea2);
    Turn(block, 0x00000080, 0x00000000, 47, 0x0fe32453, 0x68d84ea2, 0x22a31f54, 0x3f55edfd, Row(2, 0xc4ac5665, 23), 0x0, 0xca7d2dbd);
  }

  lemma EmptyValues4()
    ensures RfcStep(3, 0x3f55edfd, 0xca7d2dbd, 0x68d84ea2, 0x22a31f54, 0x80, 0xf4292244, 6) == 0x93aa2577
    ensures RfcStep(3, 0x22a31f54, 0x93aa2577, 0xca7d2dbd, 0x68d84ea2, 0x0, 0x432aff97, 10) == 0x1688dc85
    ensures RfcStep(3, 0x68d84ea2, 0x1688dc85, 0x93aa2577, 0xca7d2dbd, 0x0, 0xab9423a7, 15) == 0xcd85b8cb
    ensures RfcStep(3, 0xca7d2dbd, 0xcd85b8cb, 0x1688dc85, 0x93aa2577, 0x0, 0xfc93a039, 21) == 0x561e0689
    ensures RfcStep(3, 0x93aa2577, 0x561e0689, 0xcd85b8cb, 0x1688dc85, 0x0, 0x655b59c3, 6) == 0x5625a114
    ensures RfcStep(3, 0x1688dc85, 0x5625a114, 0x561e0689, 0xcd85b8cb, 0x0, 0x8f0ccc92, 10) == 0x3450f42b
    ensures RfcStep(3, 0xcd85b8cb, 0x3450f42b, 0x5625a114, 0x561e0689, 0x0, 0xffeff47d, 15) == 0x392ad0d0
    ensures RfcStep(3, 0x561e0689, 0x392ad0d0, 0x3450f42b, 0x5625a114, 0x0, 0x85845dd1, 21) == 0x1e77fa61
    ensures RfcStep(3, 0x5625a114, 0x1e77fa61, 0x392ad0d0, 0x3450f42b, 0x0, 0x6fa87e4f, 6) == 0x474a9c8c
    ensures RfcStep(3, 0x3450f42b, 0x474a9c8c, 0x1e77fa61, 0x392ad0d0, 0x0, 0xfe2ce6e0, 10) == 0xdfce00bc
    ensures RfcStep(3, 0x392ad0d0, 0xdfce00bc, 0x474a9c8c, 0x1e77fa61, 0x0, 0xa3014314, 15) == 0x36594b14
    ensures RfcStep(3, 0x1e77fa61, 0x36594b14, 0xdfce00bc, 0x474a9c8c, 0x0, 0x4e0811a1, 21) == 0x30130182
    ensures RfcStep(3, 0x474a9c8c, 0x30130182, 0x36594b14, 0xdfce00bc, 0x0, 0xf7537e82, 6) == 0x7246fad3
    ensures RfcStep(3, 0xdfce00bc, 0x7246fad3, 0x30130182, 0x36594b14, 0x0, 0xbd3af235, 10) == 0x6e10a476
    ensures RfcStep(3, 0x36594b14, 0x6e10a476, 0x7246fad3, 0x30130182, 0x0, 0x2ad7d2bb, 15) == 0xff4ea3eb
    ensures RfcStep(3, 0x30130182, 0xff4ea3eb, 0x6e10a476, 0x7246fad3, 0x0, 0xeb86d391, 21) == 0x14e45506
  {
  }

  lemma Empty4(block: seq<byte>)
    requires ShortMessage(block, 0x00000080, 0x00000000) && Steps(48, INITIAL, block) == Chain(0x3f55edfd, 0xca7d2dbd, 0x68d84ea2, 0x22a31f54)
    ensures Steps(64, INITIAL, block) == Chain(0x7246fad3, 0x14e45506, 0xff4ea3eb, 0x6e10a476)
  {
    Rows7();
    Rows8();
    EmptyValues4();
    hide ShortMessage;
    hide Steps;
    hide RfcStep;
    hide Listing;
    Turn(block, 0x00000080, 0x00000000, 48, 0x3f55edfd, 0xca7d2dbd, 0x68d84ea2, 0x22a31f54, Row(0, 0xf4292244, 6), 0x80, 0x93aa2577);
    Turn(block, 0x00000080, 0x00000000, 49, 0x22a31f54, 0x93aa2577, 0xca7d2dbd, 0x68d84ea2, Row(7, 0x432aff97, 10), 0x0, 0x1688dc85);
    Turn(block, 0x00000080, 0x00000000, 50, 0x68d84ea2, 0x1688dc85, 0x93aa2577, 0xca7d2dbd, Row(14, 0xab9423a7, 15), 0x0, 0xcd85b8cb);
    Turn(block, 0x00000080, 0x00000000, 51, 0xca7d2dbd, 0xcd85b8cb, 0x1688dc85, 0x93aa2577, Row(5, 0xfc93a039, 21), 0x0, 0x561e0689);
    Turn(block, 0x00000080, 0x00000000, 52, 0x93aa2577, 0x561e0689, 0xcd85b8cb, 0x1688dc85, Row(12, 0x655b59c3, 6), 0x0, 0x5625a114);
    Turn(block, 0x00000080, 0x00000000, 53, 0x1688dc85, 0x5625a114, 0x561e0689, 0xcd85b8cb, Row(3, 0x8f0ccc92, 10), 0x0, 0x3450f42b);
    Turn(block, 0x00000080, 0x00000000, 54, 0xcd85b8cb, 0x3450f42b, 0x5625a114, 0x561e0689, Row(10, 0xffeff47d, 15), 0x0, 0x392ad0d0);
    Turn(block, 0x00000080, 0x00000000, 55, 0x561e0689, 0x392ad0d0, 0x3450f42b, 0x5625a114, Row(1, 0x85845dd1, 21), 0x0, 0x1e77fa61);
    Turn(block, 0x00000080, 0x00000000, 56, 0x5625a114, 0x1e77fa61, 0x392ad0d0, 0x3450f42b, Row(8, 0x6fa87e4f, 6), 0x0, 0x474a9c8c);
    Turn(block, 0x00000080, 0x00000000, 57, 0x3450f42b, 0x474a9c8c, 0x1e77fa61, 0x392ad0d0, Row(15, 0xfe2ce6e0, 10), 0x0, 0xdfce00bc);
    Turn(block, 0x00000080, 0x00000000, 58, 0x392ad0d0, 0xdfce00bc, 0x474a9c8c, 0x1e77fa61, Row(6, 0xa3014314, 15), 0x0, 0x36594b14);
    Turn(block, 0x00000080, 0x00000000, 59, 0x1e77fa61, 0x36594b14, 0xdfce00bc, 0x474a9c8c, Row(13, 0x4e0811a1, 21), 0x0, 0x30130182);
    Turn(block, 0x00000080, 0x00000000, 60, 0x474a9c8c, 0x30130182, 0x36594b14, 0xdfce00bc, Row(4, 0xf7537e82, 6), 0x0, 0x7246fad3);
    Turn(block, 0x00000080, 0x00000000, 61, 0xdfce00bc, 0x7246fad3, 0x30130182, 0x36594b14, Row(11, 0xbd3af235, 10), 0x0, 0x6e10a476);
    Turn(block, 0x00000080, 0x00000000, 62, 0x36594b14, 0x6e10a476, 0x7246fad3, 0x30130182, Row(2, 0x2ad7d2bb, 15), 0x0, 0xff4ea3eb);
    Turn(block, 0x00000080, 0x00000000, 63, 0x30130182, 0xff4ea3eb, 0x6e10a476, 0x7246fad3, Row(9, 0xeb86d391, 21), 0x0, 0x14e45506);
  }

  lemma EmptyBlock()
    ensures ShortMessage([] + Padding(0), 0x00000080, 0x00000000)
  {
    var p: seq<byte> := [] + Padding(0);
    Lengths();
    PaddedShort([], 0x0);
    hide Padding;
    assert LittleEndian(p, 0) == 0x00000080 && LittleEndian(p, 56) == 0x00000000;
    forall k | 0 <= k < 16 && k != 0 && k != 14 ensures LittleEndian(p, 4 * k) == 0 {
    }
  }

  /** The digest of the empty message. */
  lemma DigestOfEmpty()
    ensures Digest([]) == [0xd4, 0x1d, 0x8c, 0xd9, 0x8f, 0x00, 0xb2, 0x04, 0xe9, 0x80, 0x09, 0x98, 0xec, 0xf8, 0x42, 0x7e]
  {
    var message: seq<byte> := [];
    var block := message + Padding(|message|);
    EmptyBlock();
    hide ShortMessage;
    hide Steps;
    hide Padding;
    NoSteps(block);
    Empty1(block);
    Empty2(block);
    Empty3(block);
    Empty4(block);
    EmptyResult(block);
    OneBlock(message);
  }

  lemma EmptyResult(block: seq<byte>)
    requires |block| == 64 && Steps(64, INITIAL, block) == Chain(0x7246fad3, 0x14e45506, 0xff4ea3eb, 0x6e10a476)
    ensures ChainBytes(Transform(INITIAL, block)) == [0xd4, 0x1d, 0x8c, 0xd9, 0x8f, 0x00, 0xb2, 0x04, 0xe9, 0x80, 0x09, 0x98, 0xec, 0xf8, 0x42, 0x7e]
  {
    hide Steps;
  }

  // ---- the digest of "abc" ----------------------------------------------------

  lemma AbcValues1()
    ensures RfcStep(0, 0x67452301, 0xefcdab89, 0x98badcfe, 0x10325476, 0x80636261, 0xd76aa478, 7) == 0xd6d117b4
    ensures RfcStep(0, 0x10325476, 0xd6d117b4, 0xefcdab89, 0x98badcfe, 0x0, 0xe8c7b756, 12) == 0x344a8432
    ensures RfcStep(0, 0x98badcfe, 0x344a8432, 0xd6d117b4, 0xefcdab89, 0x0, 0x242070db, 17) == 0x2f6fbd72
    ensures RfcStep(0, 0xefcdab89, 0x2f6fbd72, 0x344a8432, 0xd6d117b4, 0x0, 0xc1bdceee, 22) == 0x7ad956f2
    ensures RfcStep(0, 0xd6d117b4, 0x7ad956f2, 0x2f6fbd72, 0x344a8432, 0x0, 0xf57c0faf, 7) == 0xc73741ef
    ensures RfcStep(0, 0x344a8432, 0xc73741ef, 0x7ad956f2, 0x2f6fbd72, 0x0, 0x4787c62a, 12) == 0x8bac3051
    ensures RfcStep(0, 0x2f6fbd72, 0x8bac3051, 0xc73741ef, 0x7ad956f2, 0x0, 0xa8304613, 17) == 0x207dc67b
    ensures RfcStep(0, 0x7ad956f2, 0x207dc67b, 0x8bac3051, 0xc73741ef, 0x0, 0xfd469501, 22) == 0x928d99f6
    ensures RfcStep(0, 0xc73741ef, 0x928d99f6, 0x207dc67b, 0x8bac3051, 0x0, 0x698098d8, 7) == 0x854b3712
    ensures RfcStep(0, 0x8bac3051, 0x854b3712, 0x928d99f6, 0x207dc67b, 0x0, 0x8b44f7af, 12) == 0x74e2f284
    ensures RfcStep(0, 0x207dc67b, 0x74e2f284, 0x854b3712, 0x928d99f6, 0x0, 0xffff5bb1, 17) == 0x3020401c
    ensures RfcStep(0, 0x928d99f6, 0x3020401c, 0x74e2f284, 0x854b3712, 0x0, 0x895cd7be, 22) == 0x5ed49596
    ensures RfcStep(0, 0x854b3712, 0x5ed49596, 0x3020401c, 0x74e2f284, 0x0, 0x6b901122, 7) == 0xdda9b9a6
    ensures RfcStep(0, 0x74e2f284, 0xdda9b9a6, 0x5ed49596, 0x3020401c, 0x0, 0xfd987193, 12) == 0xa1051895
    ensures RfcStep(0, 0x3020401c, 0xa1051895, 0xdda9b9a6, 0x5ed49596, 0x18, 0xa679438e, 17) == 0xe396856b
    ensures RfcStep(0, 0x5ed49596, 0xe396856b, 0xa1051895, 0xdda9b9a6, 0x0, 0x49b40821, 22) == 0x72aff2e0
  {
  }

  lemma Abc1(block: seq<byte>)
    requires ShortMessage(block, 0x80636261, 0x00000018) && Steps(0, INITIAL, block) == Chain(0x67452301, 0xefcdab89, 0x98badcfe, 0x10325476)
    ensures Steps(16, INITIAL, block) == Chain(0xdda9b9a6, 0x72aff2e0, 0xe396856b, 0xa1051895)
  {
    Rows1();
    Rows2();
    AbcValues1();
    hide ShortMessage;
    hide Steps;
    hide RfcStep;
    hide Listing;
    Turn(block, 0x80636261, 0x00000018, 0, 0x67452301, 0xefcdab89, 0x98badcfe, 0x10325476, Row(0, 0xd76aa478, 7), 0x80636261, 0xd6d117b4);
    Turn(block, 0x80636261, 0x00000018, 1, 0x10325476, 0xd6d117b4, 0xefcdab89, 0x98badcfe, Row(1, 0xe8c7b756, 12), 0x0, 0x344a8432);
    Turn(block, 0x80636261, 0x00000018, 2, 0x98badcfe, 0x344a8432, 0xd6d117b4, 0xefcdab89, Row(2, 0x242070db, 17), 0x0, 0x2f6fbd72);
    Turn(block, 0x80636261, 0x00000018, 3, 0xefcdab89, 0x2f6fbd72, 0x344a8432, 0xd6d117b4, Row(3, 0xc1bdceee, 22), 0x0, 0x7ad956f2);
    Turn(block, 0x80636261, 0x00000018, 4, 0xd6d117b4, 0x7ad956f2, 0x2f6fbd72, 0x344a8432, Row(4, 0xf57c0faf, 7), 0x0, 0xc73741ef);
    Turn(block, 0x80636261, 0x00000018, 5, 0x344a8432, 0xc73741ef, 0x7ad956f2, 0x2f6fbd72, Row(5, 0x4787c62a, 12), 0x0, 0x8bac3051);
    Turn(block, 0x80636261, 0x00000018, 6, 0x2f6fbd72, 0x8bac3051, 0xc73741ef, 0x7ad956f2, Row(6, 0xa8304613, 17), 0x0, 0x207dc67b);
    Turn(block, 0x80636261, 0x00000018, 7, 0x7ad956f2, 0x207dc67b, 0x8bac3051, 0xc73741ef, Row(7, 0xfd469501, 22), 0x0, 0x928d99f6);
    Turn(block, 0x80636261, 0x00000018, 8, 0xc73741ef, 0x928d99f6, 0x207dc67b, 0x8bac3051, Row(8, 0x698098d8, 7), 0x0, 0x854b3712);
    Turn(block, 0x80636261, 0x00000018, 9, 0x8bac3051, 0x854b3712, 0x928d99f6, 0x207dc67b, Row(9, 0x8b44f7af, 12), 0x0, 0x74e2f284);
    Turn(block, 0x80636261, 0x00000018, 10, 0x207dc67b, 0x74e2f284, 0x854b3712, 0x928d99f6, Row(10, 0xffff5bb1, 17), 0x0, 0x3020401c);
    Turn(block, 0x80636261, 0x00000018, 11, 0x928d99f6, 0x3020401c, 0x74e2f284, 0x854b3712, Row(11, 0x895cd7be, 22), 0x0, 0x5ed49596);
    Turn(block, 0x80636261, 0x00000018, 12, 0x854b3712, 0x5ed49596, 0x3020401c, 0x74e2f284, Row(12, 0x6b901122, 7), 0x0, 0xdda9b9a6);
    Turn(block, 0x80636261, 0x00000018, 13, 0x74e2f284, 0xdda9b9a6, 0x5ed49596, 0x3020401c, Row(13, 0xfd987193, 12), 0x0, 0xa1051895);
    Turn(block, 0x80636261, 0x00000018, 14, 0x3020401c, 0xa1051895, 0xdda9b9a6, 0x5ed49596, Row(14, 0xa679438e, 17), 0x18, 0xe396856b);
    Turn(block, 0x80636261, 0x00000018, 15, 0x5ed49596, 0xe396856b, 0xa1051895, 0xdda9b9a6, Row(15, 0x49b40821, 22), 0x0, 0x72aff2e0);
  }

  lemma AbcValues2()
    ensures RfcStep(1, 0xdda9b9a6, 0x72aff2e0, 0xe396856b, 0xa1051895, 0x0, 0xf61e2562, 5) == 0x3e9e9126
    ensures RfcStep(1, 0xa1051895, 0x3e9e9126, 0x72aff2e0, 0xe396856b, 0x0, 0xc040b340, 9) == 0x4a1d804e
    ensures RfcStep(1, 0xe396856b, 0x4a1d804e, 0x3e9e9126, 0x72aff2e0, 0x0, 0x265e5a51, 14) == 0xe25e1652
    ensures RfcStep(1, 0x72aff2e0, 0xe25e1652, 0x4a1d804e, 0x3e9e9126, 0x80636261, 0xe9b6c7aa, 20) == 0xb5b204e4
    ensures RfcStep(1, 0x3e9e9126, 0xb5b204e4, 0xe25e1652, 0x4a1d804e, 0x0, 0xd62f105d, 5) == 0x59a8ffda
    ensures RfcStep(1, 0x4a1d804e, 0x59a8ffda, 0xb5b204e4, 0xe25e1652, 0x0, 0x02441453, 9) == 0x6d002f1e
    ensures RfcStep(1, 0xe25e1652, 0x6d002f1e, 0x59a8ffda, 0xb5b204e4, 0x0, 0xd8a1e681, 14) == 0xabfc7920
    ensures RfcStep(1, 0xb5b204e4, 0xabfc7920, 0x6d002f1e, 0x59a8ffda, 0x0, 0xe7d3fbc8, 20) == 0x47092c07
    ensures RfcStep(1, 0x59a8ffda, 0x47092c07, 0xabfc7920, 0x6d002f1e, 0x0, 0x21e1cde6, 5) == 0xb7f268cf
    ensures RfcStep(1, 0x6d002f1e, 0xb7f268cf, 0x47092c07, 0xabfc7920, 0x18, 0xc33707d6, 9) == 0x09388eff
    ensures RfcStep(1, 0xabfc7920, 0x09388eff, 0xb7f268cf, 0x47092c07, 0x0, 0xf4d50d87, 14) == 0xfe1623b1
    ensures RfcStep(1, 0x47092c07, 0xfe1623b1, 0x09388eff, 0xb7f268cf, 0x0, 0x455a14ed, 20) == 0x786acb8f
    ensures RfcStep(1, 0xb7f268cf, 0x786acb8f, 0xfe1623b1, 0x09388eff, 0x0, 0xa9e3e905, 5) == 0x790a77fb
    ensures RfcStep(1, 0x09388eff, 0x790a77fb, 0x786acb8f, 0xfe1623b1, 0x0, 0xfcefa3f8, 9) == 0x9f47e4f8
    ensures RfcStep(1, 0xfe1623b1, 0x9f47e4f8, 0x790a77fb, 0x786acb8f, 0x0, 0x676f02d9, 14) == 0xa62884aa
    ensures RfcStep(1, 0x786acb8f, 0xa62884aa, 0x9f47e4f8, 0x790a77fb, 0x0, 0x8d2a4c8a, 20) == 0x726342d3
  {
  }

  lemma Abc2(block: seq<byte>)
    requires ShortMessage(block, 0x80636261, 0x00000018) && Steps(16, INITIAL, block) == Chain(0xdda9b9a6, 0x72aff2e0, 0xe396856b, 0xa1051895)
    ensures Steps(32, INITIAL, block) == Chain(0x790a77fb, 0x726342d3, 0xa62884aa, 0x9f47e4f8)
  {
    Rows3();
    Rows4();
    AbcValues2();
    hide ShortMessage;
    hide Steps;
    hide RfcStep;
    hide Listing;
    Turn(block, 0x80636261, 0x00000018, 16, 0xdda9b9a6, 0x72aff2e0, 0xe396856b, 0xa1051895, Row(1, 0xf61e2562, 5), 0x0, 0x3e9e9126);
    Turn(block, 0x80636261, 0x00000018, 17, 0xa1051895, 0x3e9e9126, 0x72aff2e0, 0xe396856b, Row(6, 0xc040b340, 9), 0x0, 0x4a1d804e);
    Turn(block, 0x80636261, 0x00000018, 18, 0xe396856b, 0x4a1d804e, 0x3e9e9126, 0x72aff2e0, Row(11, 0x265e5a51, 14), 0x0, 0xe25e1652);
    Turn(block, 0x80636261, 0x00000018, 19, 0x72aff2e0, 0xe25e1652, 0x4a1d804e, 0x3e9e9126, Row(0, 0xe9b6c7aa, 20), 0x80636261, 0xb5b204e4);
    Turn(block, 0x80636261, 0x00000018, 20, 0x3e9e9126, 0xb5b204e4, 0xe25e1652, 0x4a1d804e, Row(5, 0xd62f105d, 5), 0x0, 0x59a8ffda);
    Turn(block, 0x80636261, 0x00000018, 21, 0x4a1d804e, 0x59a8ffda, 0xb5b204e4, 0xe25e1652, Row(10, 0x02441453, 9), 0x0, 0x6d002f1e);
    Turn(block, 0x80636261, 0x00000018, 22, 0xe25e1652, 0x6d002f1e, 0x59a8ffda, 0xb5b204e4, Row(15, 0xd8a1e681, 14), 0x0, 0xabfc7920);
    Turn(block, 0x80636261, 0x00000018, 23, 0xb5b204e4, 0xabfc7920, 0x6d002f1e, 0x59a8ffda, Row(4, 0xe7d3fbc8, 20), 0x0, 0x47092c07);
    Turn(block, 0x80636261, 0x00000018, 24, 0x59a8ffda, 0x47092c07, 0xabfc7920, 0x6d002f1e, Row(9, 0x21e1cde6, 5), 0x0, 0xb7f268cf);
    Turn(block, 0x80636261, 0x00000018, 25, 0x6d002f1e, 0xb7f268cf, 0x47092c07, 0xabfc7920, Row(14, 0xc33707d6, 9), 0x18, 0x09388eff);
    Turn(block, 0x80636261, 0x00000018, 26, 0xabfc7920, 0x09388eff, 0xb7f268cf, 0x47092c07, Row(3, 0xf4d50d87, 14), 0x0, 0xfe1623b1);
    Turn(block, 0x80636261, 0x00000018, 27, 0x47092c07, 0xfe1623b1, 0x09388eff, 0xb7f268cf, Row(8, 0x455a14ed, 20), 0x0, 0x786acb8f);
    Turn(block, 0x80636261, 0x00000018, 28, 0xb7f268cf, 0x786acb8f, 0xfe1623b1, 0x09388eff, Row(13, 0xa9e3e905, 5), 0x0, 0x790a77fb);
    Turn(block, 0x80636261, 0x00000018, 29, 0x09388eff, 0x790a77fb, 0x786acb8f, 0xfe1623b1, Row(2, 0xfcefa3f8, 9), 0x0, 0x9f47e4f8);
    Turn(block, 0x80636261, 0x00000018, 30, 0xfe1623b1, 0x9f47e4f8, 0x790a77fb, 0x786acb8f, Row(7, 0x676f02d9, 14), 0x0, 0xa62884aa);
    Turn(block, 0x80636261, 0x00000018, 31, 0x786acb8f, 0xa62884aa, 0x9f47e4f8, 0x790a77fb, Row(12, 0x8d2a4c8a, 20), 0x0, 0x726342d3);
  }

  lemma AbcValues3()
    ensures RfcStep(2, 0x790a77fb, 0x726342d3, 0xa62884aa, 0x9f47e4f8, 0x0, 0xfffa3942, 4) == 0xb3707ebf
    ensures RfcStep(2, 0x9f47e4f8, 0xb3707ebf, 0x726342d3, 0xa62884aa, 0x0, 0x8771f681, 11) == 0x60127b2e
    ensures RfcStep(2, 0xa62884aa, 0x60127b2e, 0xb3707ebf, 0x726342d3, 0x0, 0x6d9d6122, 16) == 0x8d212ff5
    ensures RfcStep(2, 0x726342d3, 0x8d212ff5, 0x60127b2e, 0xb3707ebf, 0x18, 0xfde5380c, 23) == 0x3b0875c7
    ensures RfcStep(2, 0xb3707ebf, 0x3b0875c7, 0x8d212ff5, 0x60127b2e, 0x0, 0xa4beea44, 4) == 0x21b117b9
    ensures RfcStep(2, 0x60127b2e, 0x21b117b9, 0x3b0875c7, 0x8d212ff5, 0x0, 0x4bdecfa9, 11) == 0x6e7429d5
    ensures RfcStep(2, 0x8d212ff5, 0x6e7429d5, 0x21b117b9, 0x3b0875c7, 0x0, 0xf6bb4b60, 16) == 0x3575227e
    ensures RfcStep(2, 0x3b0875c7, 0x3575227e, 0x6e7429d5, 0x21b117b9, 0x0, 0xbebfbc70, 23) == 0x5a2f5ea5
    ensures RfcStep(2, 0x21b117b9, 0x5a2f5ea5, 0x3575227e, 0x6e7429d5, 0x0, 0x289b7ec6, 4) == 0x11de1779
    ensures RfcStep(2, 0x6e7429d5, 0x11de1779, 0x5a2f5ea5, 0x3575227e, 0x80636261, 0xeaa127fa, 11) == 0xfadcaa38
    ensures RfcStep(2, 0x3575227e, 0xfadcaa38, 0x11de1779, 0x5a2f5ea5, 0x0, 0xd4ef3085, 16) == 0x31c465ca
    ensures RfcStep(2, 0x5a2f5ea5, 0x31c465ca, 0xfadcaa38, 0x11de1779, 0x0, 0x04881d05, 23) == 0x4c6124f4
    ensures RfcStep(2, 0x11de1779, 0x4c6124f4, 0x31c465ca, 0xfadcaa38, 0x0, 0xd9d4d039, 4) == 0x7f2e507b
    ensures RfcStep(2, 0xfadcaa38, 0x7f2e507b, 0x4c6124f4, 0x31c465ca, 0x0, 0xe6db99e5, 11) == 0x99d9679d
    ensures RfcStep(2, 0x31c465ca, 0x99d9679d, 0x7f2e507b, 0x4c6124f4, 0x0, 0x1fa27cf8, 16) == 0x8fae6399
    ensures RfcStep(2, 0x4c6124f4, 0x8fae6399, 0x99d9679d, 0x7f2e507b, 0x0, 0xc4ac5665, 23) == 0x7beb9700
  {
  }

  lemma Abc3(block: seq<byte>)
    requires ShortMessage(block, 0x80636261, 0x00000018) && Steps(32, INITIAL, block) == Chain(0x790a77fb, 0x726342d3, 0xa62884aa, 0x9f47e4f8)
    ensures Steps(48, INITIAL, block) == Chain(0x7f2e507b, 0x7beb9700, 0x8fae6399, 0x99d9679d)
  {
    Rows5();
    Rows6();
    AbcValues3();
    hide ShortMessage;
    hide Steps;
    hide RfcStep;
    hide Listing;
    Turn(block, 0x80636261, 0x00000018, 32, 0x790a77fb, 0x726342d3, 0xa62884aa, 0x9f47e4f8, Row(5, 0xfffa3942, 4), 0x0, 0xb3707ebf);
    Turn(block, 0x80636261, 0x00000018, 33, 0x9f47e4f8, 0xb3707ebf, 0x726342d3, 0xa62884aa, Row(8, 0x8771f681, 11), 0x0, 0x60127b2e);
    Turn(block, 0x80636261, 0x00000018, 34, 0xa62884aa, 0x60127b2e, 0xb3707ebf, 0x726342d3, Row(11, 0x6d9d6122, 16), 0x0, 0x8d212ff5);
    Turn(block, 0x80636261, 0x00000018, 35, 0x726342d3, 0x8d212ff5, 0x60127b2e, 0xb3707ebf, Row(14, 0xfde5380c, 23), 0x18, 0x3b0875c7);
    Turn(block, 0x80636261, 0x00000018, 36, 0xb3707ebf, 0x3b0875c7, 0x8d212ff5, 0x60127b2e, Row(1, 0xa4beea44, 4), 0x0, 0x21b117b9);
    Turn(block, 0x80636261, 0x00000018, 37, 0x60127b2e, 0x21b117b9, 0x3b0875c7, 0x8d212ff5, Row(4, 0x4bdecfa9, 11), 0x0, 0x6e7429d5);
    Turn(block, 0x80636261, 0x00000018, 38, 0x8d212ff5, 0x6e7429d5, 0x21b117b9, 0x3b0875c7, Row(7, 0xf6bb4b60, 16), 0x0, 0x3575227e);
    Turn(block, 0x80636261, 0x00000018, 39, 0x3b0875c7, 0x3575227e, 0x6e7429d5, 0x21b117b9, Row(10, 0xbebfbc70, 23), 0x0, 0x5a2f5ea5);
    Turn(block, 0x80636261, 0x00000018, 40, 0x21b117b9, 0x5a2f5ea5, 0x3575227e, 0x6e7429d5, Row(13, 0x289b7ec6, 4), 0x0, 0x11de1779);
    Turn(block, 0x80636261, 0x00000018, 41, 0x6e7429d5, 0x11de1779, 0x5a2f5ea5, 0x3575227e, Row(0, 0xeaa127fa, 11), 0x80636261, 0xfadcaa38);
    Turn(block, 0x80636261, 0x00000018, 42, 0x3575227e, 0xfadcaa38, 0x11de1779, 0x5a2f5ea5, Row(3, 0xd4ef3085, 16), 0x0, 0x31c465ca);
    Turn(block, 0x80636261, 0x00000018, 43, 0x5a2f5ea5, 0x31c465ca, 0xfadcaa38, 0x11de1779, Row(6, 0x04881d05, 23), 0x0, 0x4c6124f4);
    Turn(block, 0x80636261, 0x00000018, 44, 0x11de1779, 0x4c6124f4, 0x31c465ca, 0xfadcaa38, Row(9, 0xd9d4d039, 4), 0x0, 0x7f2e507b);
    Turn(block, 0x80636261, 0x00000018, 45, 0xfadcaa38, 0x7f2e507b, 0x4c6124f4, 0x31c465ca, Row(12, 0xe6db99e5, 11), 0x0, 0x99d9679d);
    Turn(block, 0x80636261, 0x00000018, 46, 0x31c465ca, 0x99d9679d, 0x7f2e507b, 0x4c6124f4, Row(15, 0x1fa27cf8, 16), 0x0, 0x8fae6399);
    Turn(block, 0x80636261, 0x00000018, 47, 0x4c6124f4, 0x8fae6399, 0x99d9679d, 0x7f2e507b, Row(2, 0xc4ac5665, 23), 0x0, 0x7beb9700);
  }

  lemma AbcValues4()
    ensures RfcStep(3, 0x7f2e507b, 0x7beb9700, 0x8fae6399, 0x99d9679d, 0x80636261, 0xf4292244, 6) == 0x7b201df8
    ensures RfcStep(3, 0x99d9679d, 0x7b201df8, 0x7beb9700, 0x8fae6399, 0x0, 0x432aff97, 10) == 0xf4e8e96e
    ensures RfcStep(3, 0x8fae6399, 0xf4e8e96e, 0x7b201df8, 0x7beb9700, 0x18, 0xab9423a7, 15) == 0xb298cefd
    ensures RfcStep(3, 0x7beb9700, 0xb298cefd, 0xf4e8e96e, 0x7b201df8, 0x0, 0xfc93a039, 21) == 0x8bf025c4
    ensures RfcStep(3, 0x7b201df8, 0x8bf025c4, 0xb298cefd, 0xf4e8e96e, 0x0, 0x655b59c3, 6) == 0x06cc5e8a
    ensures RfcStep(3, 0xf4e8e96e, 0x06cc5e8a, 0x8bf025c4, 0xb298cefd, 0x0, 0x8f0ccc92, 10) == 0x5b0d97aa
    ensures RfcStep(3, 0xb298cefd, 0x5b0d97aa, 0x06cc5e8a, 0x8bf025c4, 0x0, 0xffeff47d, 15) == 0x7d632dd0
    ensures RfcStep(3, 0x8bf025c4, 0x7d632dd0, 0x5b0d97aa, 0x06cc5e8a, 0x0, 0x85845dd1, 21) == 0x3bfa2c27
    ensures RfcStep(3, 0x06cc5e8a, 0x3bfa2c27, 0x7d632dd0, 0x5b0d97aa, 0x0, 0x6fa87e4f, 6) == 0x7f81cc35
    ensures RfcStep(3, 0x5b0d97aa, 0x7f81cc35, 0x3bfa2c27, 0x7d632dd0, 0x0, 0xfe2ce6e0, 10) == 0x094454ab
    ensures RfcStep(3, 0x7d632dd0, 0x094454ab, 0x7f81cc35, 0x3bfa2c27, 0x0, 0xa3014314, 15) == 0x4f9dbe3f
    ensures RfcStep(3, 0x3bfa2c27, 0x4f9dbe3f, 0x094454ab, 0x7f81cc35, 0x0, 0x4e0811a1, 21) == 0x7327d604
    ensures RfcStep(3, 0x7f81cc35, 0x7327d604, 0x4f9dbe3f, 0x094454ab, 0x0, 0xf7537e82, 6) == 0x310ade8f
    ensures RfcStep(3, 0x094454ab, 0x310ade8f, 0x7327d604, 0x4f9dbe3f, 0x0, 0xbd3af235, 10) == 0x624d8cb2
    ensures RfcStep(3, 0x4f9dbe3f, 0x624d8cb2, 0x310ade8f, 0x7327d604, 0x0, 0x2ad7d2bb, 15) == 0xe484b9d8
    ensures RfcStep(3, 0x7327d604, 0xe484b9d8, 0x624d8cb2, 0x310ade8f, 0x0, 0xeb86d391, 21) == 0xc08226b3
  {
  }

  lemma Abc4(block: seq<byte>)
    requires ShortMessage(block, 0x80636261, 0x00000018) && Steps(48, INITIAL, block) == Chain(0x7f2e507b, 0x7beb9700, 0x8fae6399, 0x99d9679d)
    ensures Steps(64, INITIAL, block) == Chain(0x310ade8f, 0xc08226b3, 0xe484b9d8, 0x624d8cb2)
  {
    Rows7();
    Rows8();
    AbcValues4();
    hide ShortMessage;
    hide Steps;
    hide RfcStep;
    hide Listing;
    Turn(block, 0x80636261, 0x00000018, 48, 0x7f2e507b, 0x7beb9700, 0x8fae6399, 0x99d9679d, Row(0, 0xf4292244, 6), 0x80636261, 0x7b201df8);
    Turn(block, 0x80636261, 0x00000018, 49, 0x99d9679d, 0x7b201df8, 0x7beb9700, 0x8fae6399, Row(7, 0x432aff97, 10), 0x0, 0xf4e8e96e);
    Turn(block, 0x80636261, 0x00000018, 50, 0x8fae6399, 0xf4e8e96e, 0x7b201df8, 0x7beb9700, Row(14, 0xab9423a7, 15), 0x18, 0xb298cefd);
    Turn(block, 0x80636261, 0x00000018, 51, 0x7beb9700, 0xb298cefd, 0xf4e8e96e, 0x7b201df8, Row(5, 0xfc93a039, 21), 0x0, 0x8bf025c4);
    Turn(block, 0x80636261, 0x00000018, 52, 0x7b201df8, 0x8bf025c4, 0xb298cefd, 0xf4e8e96e, Row(12, 0x655b59c3, 6), 0x0, 0x06cc5e8a);
    Turn(block, 0x80636261, 0x00000018, 53, 0xf4e8e96e, 0x06cc5e8a, 0x8bf025c4, 0xb298cefd, Row(3, 0x8f0ccc92, 10), 0x0, 0x5b0d97aa);
    Turn(block, 0x80636261, 0x00000018, 54, 0xb298cefd, 0x5b0d97aa, 0x06cc5e8a, 0x8bf025c4, Row(10, 0xffeff47d, 15), 0x0, 0x7d632dd0);
    Turn(block, 0x80636261, 0x00000018, 55, 0x8bf025c4, 0x7d632dd0, 0x5b0d97aa, 0x06cc5e8a, Row(1, 0x85845dd1, 21), 0x0, 0x3bfa2c27);
    Turn(block, 0x80636261, 0x00000018, 56, 0x06cc5e8a, 0x3bfa2c27, 0x7d632dd0, 0x5b0d97aa, Row(8, 0x6fa87e4f, 6), 0x0, 0x7f81cc35);
    Turn(block, 0x80636261, 0x00000018, 57, 0x5b0d97aa, 0x7f81cc35, 0x3bfa2c27, 0x7d632dd0, Row(15, 0xfe2ce6e0, 10), 0x0, 0x094454ab);
    Turn(block, 0x80636261, 0x00000018, 58, 0x7d632dd0, 0x094454ab, 0x7f81cc35, 0x3bfa2c27, Row(6, 0xa3014314, 15), 0x0, 0x4f9dbe3f);
    Turn(block, 0x80636261, 0x00000018, 59, 0x3bfa2c27, 0x4f9dbe3f, 0x094454ab, 0x7f81cc35, Row(13, 0x4e0811a1, 21), 0x0, 0x7327d604);
    Turn(block, 0x80636261, 0x00000018, 60, 0x7f81cc35, 0x7327d604, 0x4f9dbe3f, 0x094454ab, Row(4, 0xf7537e82, 6), 0x0, 0x310ade8f);
    Turn(block, 0x80636261, 0x00000018, 61, 0x094454ab, 0x310ade8f, 0x7327d604, 0x4f9dbe3f, Row(11, 0xbd3af235, 10), 0x0, 0x624d8cb2);
    Turn(block, 0x80636261, 0x00000018, 62, 0x4f9dbe3f, 0x624d8cb2, 0x310ade8f, 0x7327d604, Row(2, 0x2ad7d2bb, 15), 0x0, 0xe484b9d8);
    Turn(block, 0x80636261, 0x00000018, 63, 0x7327d604, 0xe484b9d8, 0x624d8cb2, 0x310ade8f, Row(9, 0xeb86d391, 21), 0x0, 0xc08226b3);
  }

  lemma AbcBlock()
    ensures ShortMessage([0x61, 0x62, 0x63] + Padding(3), 0x80636261, 0x00000018)
  {
    var p: seq<byte> := [0x61, 0x62, 0x63] + Padding(3);
    Lengths();
    PaddedShort([0x61, 0x62, 0x63], 0x18);
    hide Padding;
    assert LittleEndian(p, 0) == 0x80636261 && LittleEndian(p, 56) == 0x00000018;
    forall k | 0 <= k < 16 && k != 0 && k != 14 ensures LittleEndian(p, 4 * k) == 0 {
    }
  }

  /** The digest of "abc". */
  lemma DigestOfAbc()
    ensures Digest([0x61, 0x62, 0x63]) == [0x90, 0x01, 0x50, 0x98, 0x3c, 0xd2, 0x4f, 0xb0, 0xd6, 0x96, 0x3f, 0x7d, 0x28, 0xe1, 0x7f, 0x72]
  {
    var message: seq<byte> := [0x61, 0x62, 0x63];
    var block := message + Padding(|message|);
    AbcBlock();
    hide ShortMessage;
    hide Steps;
    hide Padding;
    NoSteps(block);
    Abc1(block);
    Abc2(block);
    Abc3(block);
    Abc4(block);
    AbcResult(block);
    OneBlock(message);
  }

  lemma AbcResult(block: seq<byte>)
    requires |block| == 64 && Steps(64, INITIAL, block) == Chain(0x310ade8f, 0xc08226b3, 0xe484b9d8, 0x624d8cb2)
    ensures ChainBytes(Transform(INITIAL, block)) == [0x90, 0x01, 0x50, 0x98, 0x3c, 0xd2, 0x4f, 0xb0, 0xd6, 0x96, 0x3f, 0x7d, 0x28, 0xe1, 0x7f, 0x72]
  {
    hide Steps;
  }
}
