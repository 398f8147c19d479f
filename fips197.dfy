/** The AES-128 algorithm as FIPS 197 defines it: the S-box and its inverse
    (sections 5.1.1 and 5.3.2), the State transformations of the cipher
    (section 5.1) and of the inverse cipher (section 5.3), the key expansion
    (section 5.2), Cipher, InvCipher and the equivalent inverse cipher
    (section 5.3.5), with Nk = 4 and Nr = 10. The State is kept as the 16
    input bytes in order: byte i is row i % 4 of column i / 4 (section 3.4). */
module Fips197 {
  import opened GF256

  /** The number of rounds of AES-128. */
  const Nr: nat := 10

  /** The number of 32-bit words in an AES-128 key. */
  const Nk: nat := 4

  /** The State, a round key, or an input or output block: 16 bytes. */
  type Block = b: seq<Byte> | |b| == 16 witness [0, 0, 0, 0, 0, 0, 0, 0, 0, 0, 0, 0, 0, 0, 0, 0]

  /** SubBytes on one byte: the S-box of Figure 7 (section 5.1.1), written as
      a search tree over the byte's value n; row x of the figure holds the
      entries n = 16x .. 16x + 15. */
  function SubByte(b: Byte): Byte
  {
    var n := b as int;
    if n < 0x80 then
      if n < 0x40 then
        if n < 0x20 then
          if n < 0x10 then
            if n < 0x08 then
              if n < 0x04 then (if n < 0x02 then (if n < 0x01 then 0x63 else 0x7c) else (if n < 0x03 then 0x77 else 0x7b))
              else (if n < 0x06 then (if n < 0x05 then 0xf2 else 0x6b) else (if n < 0x07 then 0x6f else 0xc5))
            else
              if n < 0x0c then (if n < 0x0a then (if n < 0x09 then 0x30 else 0x01) else (if n < 0x0b then 0x67 else 0x2b))
              else (if n < 0x0e then (if n < 0x0d then 0xfe else 0xd7) else (if n < 0x0f then 0xab else 0x76))
          else
            if n < 0x18 then
              if n < 0x14 then (if n < 0x12 then (if n < 0x11 then 0xca else 0x82) else (if n < 0x13 then 0xc9 else 0x7d))
              else (if n < 0x16 then (if n < 0x15 then 0xfa else 0x59) else (if n < 0x17 then 0x47 else 0xf0))
            else
              if n < 0x1c then (if n < 0x1a then (if n < 0x19 then 0xad else 0xd4) else (if n < 0x1b then 0xa2 else 0xaf))
              else (if n < 0x1e then (if n < 0x1d then 0x9c else 0xa4) else (if n < 0x1f then 0x72 else 0xc0))
        else
          if n < 0x30 then
            if n < 0x28 then
              if n < 0x24 then (if n < 0x22 then (if n < 0x21 then 0xb7 else 0xfd) else (if n < 0x23 then 0x93 else 0x26))
              else (if n < 0x26 then (if n < 0x25 then 0x36 else 0x3f) else (if n < 0x27 then 0xf7 else 0xcc))
            else
              if n < 0x2c then (if n < 0x2a then (if n < 0x29 then 0x34 else 0xa5) else (if n < 0x2b then 0xe5 else 0xf1))
              else (if n < 0x2e then (if n < 0x2d then 0x71 else 0xd8) else (if n < 0x2f then 0x31 else 0x15))
          else
            if n < 0x38 then
              if n < 0x34 then (if n < 0x32 then (if n < 0x31 then 0x04 else 0xc7) else (if n < 0x33 then 0x23 else 0xc3))
              else (if n < 0x36 then (if n < 0x35 then 0x18 else 0x96) else (if n < 0x37 then 0x05 else 0x9a))
            else
              if n < 0x3c then (if n < 0x3a then (if n < 0x39 then 0x07 else 0x12) else (if n < 0x3b then 0x80 else 0xe2))
              else (if n < 0x3e then (if n < 0x3d then 0xeb else 0x27) else (if n < 0x3f then 0xb2 else 0x75))
      else
        if n < 0x60 then
          if n < 0x50 then
            if n < 0x48 then
              if n < 0x44 then (if n < 0x42 then (if n < 0x41 then 0x09 else 0x83) else (if n < 0x43 then 0x2c else 0x1a))
              else (if n < 0x46 then (if n < 0x45 then 0x1b else 0x6e) else (if n < 0x47 then 0x5a else 0xa0))
            else
              if n < 0x4c then (if n < 0x4a then (if n < 0x49 then 0x52 else 0x3b) else (if n < 0x4b then 0xd6 else 0xb3))
              else (if n < 0x4e then (if n < 0x4d then 0x29 else 0xe3) else (if n < 0x4f then 0x2f else 0x84))
          else
            if n < 0x58 then
              if n < 0x54 then (if n < 0x52 then (if n < 0x51 then 0x53 else 0xd1) else (if n < 0x53 then 0x00 else 0xed))
              else (if n < 0x56 then (if n < 0x55 then 0x20 else 0xfc) else (if n < 0x57 then 0xb1 else 0x5b))
            else
              if n < 0x5c then (if n < 0x5a then (if n < 0x59 then 0x6a else 0xcb) else (if n < 0x5b then 0xbe else 0x39))
              else (if n < 0x5e then (if n < 0x5d then 0x4a else 0x4c) else (if n < 0x5f then 0x58 else 0xcf))
        else
          if n < 0x70 then
            if n < 0x68 then
              if n < 0x64 then (if n < 0x62 then (if n < 0x61 then 0xd0 else 0xef) else (if n < 0x63 then 0xaa else 0xfb))
              else (if n < 0x66 then (if n < 0x65 then 0x43 else 0x4d) else (if n < 0x67 then 0x33 else 0x85))
            else
              if n < 0x6c then (if n < 0x6a then (if n < 0x69 then 0x45 else 0xf9) else (if n < 0x6b then 0x02 else 0x7f))
              else (if n < 0x6e then (if n < 0x6d then 0x50 else 0x3c) else (if n < 0x6f then 0x9f else 0xa8))
          else
            if n < 0x78 then
              if n < 0x74 then (if n < 0x72 then (if n < 0x71 then 0x51 else 0xa3) else (if n < 0x73 then 0x40 else 0x8f))
              else (if n < 0x76 then (if n < 0x75 then 0x92 else 0x9d) else (if n < 0x77 then 0x38 else 0xf5))
            else
              if n < 0x7c then (if n < 0x7a then (if n < 0x79 then 0xbc else 0xb6) else (if n < 0x7b then 0xda else 0x21))
              else (if n < 0x7e then (if n < 0x7d then 0x10 else 0xff) else (if n < 0x7f then 0xf3 else 0xd2))
    else
      if n < 0xc0 then
        if n < 0xa0 then
          if n < 0x90 then
            if n < 0x88 then
              if n < 0x84 then (if n < 0x82 then (if n < 0x81 then 0xcd else 0x0c) else (if n < 0x83 then 0x13 else 0xec))
              else (if n < 0x86 then (if n < 0x85 then 0x5f else 0x97) else (if n < 0x87 then 0x44 else 0x17))
            else
              if n < 0x8c then (if n < 0x8a then (if n < 0x89 then 0xc4 else 0xa7) else (if n < 0x8b then 0x7e else 0x3d))
              else (if n < 0x8e then (if n < 0x8d then 0x64 else 0x5d) else (if n < 0x8f then 0x19 else 0x73))
          else
            if n < 0x98 then
              if n < 0x94 then (if n < 0x92 then (if n < 0x91 then 0x60 else 0x81) else (if n < 0x93 then 0x4f else 0xdc))
              else (if n < 0x96 then (if n < 0x95 then 0x22 else 0x2a) else (if n < 0x97 then 0x90 else 0x88))
            else
              if n < 0x9c then (if n < 0x9a then (if n < 0x99 then 0x46 else 0xee) else (if n < 0x9b then 0xb8 else 0x14))
              else (if n < 0x9e then (if n < 0x9d then 0xde else 0x5e) else (if n < 0x9f then 0x0b else 0xdb))
        else
          if n < 0xb0 then
            if n < 0xa8 then
              if n < 0xa4 then (if n < 0xa2 then (if n < 0xa1 then 0xe0 else 0x32) else (if n < 0xa3 then 0x3a else 0x0a))
              else (if n < 0xa6 then (if n < 0xa5 then 0x49 else 0x06) else (if n < 0xa7 then 0x24 else 0x5c))
            else
              if n < 0xac then (if n < 0xaa then (if n < 0xa9 then 0xc2 else 0xd3) else (if n < 0xab then 0xac else 0x62))
              else (if n < 0xae then (if n < 0xad then 0x91 else 0x95) else (if n < 0xaf then 0xe4 else 0x79))
          else
            if n < 0xb8 then
              if n < 0xb4 then (if n < 0xb2 then (if n < 0xb1 then 0xe7 else 0xc8) else (if n < 0xb3 then 0x37 else 0x6d))
              else (if n < 0xb6 then (if n < 0xb5 then 0x8d else 0xd5) else (if n < 0xb7 then 0x4e else 0xa9))
            else
              if n < 0xbc then (if n < 0xba then (if n < 0xb9 then 0x6c else 0x56) else (if n < 0xbb then 0xf4 else 0xea))
              else (if n < 0xbe then (if n < 0xbd then 0x65 else 0x7a) else (if n < 0xbf then 0xae else 0x08))
      else
        if n < 0xe0 then
          if n < 0xd0 then
            if n < 0xc8 then
              if n < 0xc4 then (if n < 0xc2 then (if n < 0xc1 then 0xba else 0x78) else (if n < 0xc3 then 0x25 else 0x2e))
              else (if n < 0xc6 then (if n < 0xc5 then 0x1c else 0xa6) else (if n < 0xc7 then 0xb4 else 0xc6))
            else
              if n < 0xcc then (if n < 0xca then (if n < 0xc9 then 0xe8 else 0xdd) else (if n < 0xcb then 0x74 else 0x1f))
              else (if n < 0xce then (if n < 0xcd then 0x4b else 0xbd) else (if n < 0xcf then 0x8b else 0x8a))
          else
            if n < 0xd8 then
              if n < 0xd4 then (if n < 0xd2 then (if n < 0xd1 then 0x70 else 0x3e) else (if n < 0xd3 then 0xb5 else 0x66))
              else (if n < 0xd6 then (if n < 0xd5 then 0x48 else 0x03) else (if n < 0xd7 then 0xf6 else 0x0e))
            else
              if n < 0xdc then (if n < 0xda then (if n < 0xd9 then 0x61 else 0x35) else (if n < 0xdb then 0x57 else 0xb9))
              else (if n < 0xde then (if n < 0xdd then 0x86 else 0xc1) else (if n < 0xdf then 0x1d else 0x9e))
        else
          if n < 0xf0 then
            if n < 0xe8 then
              if n < 0xe4 then (if n < 0xe2 then (if n < 0xe1 then 0xe1 else 0xf8) else (if n < 0xe3 then 0x98 else 0x11))
              else (if n < 0xe6 then (if n < 0xe5 then 0x69 else 0xd9) else (if n < 0xe7 then 0x8e else 0x94))
            else
              if n < 0xec then (if n < 0xea then (if n < 0xe9 then 0x9b else 0x1e) else (if n < 0xeb then 0x87 else 0xe9))
              else (if n < 0xee then (if n < 0xed then 0xce else 0x55) else (if n < 0xef then 0x28 else 0xdf))
          else
            if n < 0xf8 then
              if n < 0xf4 then (if n < 0xf2 then (if n < 0xf1 then 0x8c else 0xa1) else (if n < 0xf3 then 0x89 else 0x0d))
              else (if n < 0xf6 then (if n < 0xf5 then 0xbf else 0xe6) else (if n < 0xf7 then 0x42 else 0x68))
            else
              if n < 0xfc then (if n < 0xfa then (if n < 0xf9 then 0x41 else 0x99) else (if n < 0xfb then 0x2d else 0x0f))
              else (if n < 0xfe then (if n < 0xfd then 0xb0 else 0x54) else (if n < 0xff then 0xbb else 0x16))
  }

  /** InvSubBytes on one byte: the inverse S-box of Figure 14 (section 5.3.2),
      laid out like SubByte. */
  function InvSubByte(b: Byte): Byte
  {
    var n := b as int;
    if n < 0x80 then
      if n < 0x40 then
        if n < 0x20 then
          if n < 0x10 then
            if n < 0x08 then
              if n < 0x04 then (if n < 0x02 then (if n < 0x01 then 0x52 else 0x09) else (if n < 0x03 then 0x6a else 0xd5))
              else (if n < 0x06 then (if n < 0x05 then 0x30 else 0x36) else (if n < 0x07 then 0xa5 else 0x38))
            else
              if n < 0x0c then (if n < 0x0a then (if n < 0x09 then 0xbf else 0x40) else (if n < 0x0b then 0xa3 else 0x9e))
              else (if n < 0x0e then (if n < 0x0d then 0x81 else 0xf3) else (if n < 0x0f then 0xd7 else 0xfb))
          else
            if n < 0x18 then
              if n < 0x14 then (if n < 0x12 then (if n < 0x11 then 0x7c else 0xe3) else (if n < 0x13 then 0x39 else 0x82))
              else (if n < 0x16 then (if n < 0x15 then 0x9b else 0x2f) else (if n < 0x17 then 0xff else 0x87))
            else
              if n < 0x1c then (if n < 0x1a then (if n < 0x19 then 0x34 else 0x8e) else (if n < 0x1b then 0x43 else 0x44))
              else (if n < 0x1e then (if n < 0x1d then 0xc4 else 0xde) else (if n < 0x1f then 0xe9 else 0xcb))
        else
          if n < 0x30 then
            if n < 0x28 then
              if n < 0x24 then (if n < 0x22 then (if n < 0x21 then 0x54 else 0x7b) else (if n < 0x23 then 0x94 else 0x32))
              else (if n < 0x26 then (if n < 0x25 then 0xa6 else 0xc2) else (if n < 0x27 then 0x23 else 0x3d))
            else
              if n < 0x2c then (if n < 0x2a then (if n < 0x29 then 0xee else 0x4c) else (if n < 0x2b then 0x95 else 0x0b))
              else (if n < 0x2e then (if n < 0x2d then 0x42 else 0xfa) else (if n < 0x2f then 0xc3 else 0x4e))
          else
            if n < 0x38 then
              if n < 0x34 then (if n < 0x32 then (if n < 0x31 then 0x08 else 0x2e) else (if n < 0x33 then 0xa1 else 0x66))
              else (if n < 0x36 then (if n < 0x35 then 0x28 else 0xd9) else (if n < 0x37 then 0x24 else 0xb2))
            else
              if n < 0x3c then (if n < 0x3a then (if n < 0x39 then 0x76 else 0x5b) else (if n < 0x3b then 0xa2 else 0x49))
              else (if n < 0x3e then (if n < 0x3d then 0x6d else 0x8b) else (if n < 0x3f then 0xd1 else 0x25))
      else
        if n < 0x60 then
          if n < 0x50 then
            if n < 0x48 then
              if n < 0x44 then (if n < 0x42 then (if n < 0x41 then 0x72 else 0xf8) else (if n < 0x43 then 0xf6 else 0x64))
              else (if n < 0x46 then (if n < 0x45 then 0x86 else 0x68) else (if n < 0x47 then 0x98 else 0x16))
            else
              if n < 0x4c then (if n < 0x4a then (if n < 0x49 then 0xd4 else 0xa4) else (if n < 0x4b then 0x5c else 0xcc))
              else (if n < 0x4e then (if n < 0x4d then 0x5d else 0x65) else (if n < 0x4f then 0xb6 else 0x92))
          else
            if n < 0x58 then
              if n < 0x54 then (if n < 0x52 then (if n < 0x51 then 0x6c else 0x70) else (if n < 0x53 then 0x48 else 0x50))
              else (if n < 0x56 then (if n < 0x55 then 0xfd else 0xed) else (if n < 0x57 then 0xb9 else 0xda))
            else
              if n < 0x5c then (if n < 0x5a then (if n < 0x59 then 0x5e else 0x15) else (if n < 0x5b then 0x46 else 0x57))
              else (if n < 0x5e then (if n < 0x5d then 0xa7 else 0x8d) else (if n < 0x5f then 0x9d else 0x84))
        else
          if n < 0x70 then
            if n < 0x68 then
              if n < 0x64 then (if n < 0x62 then (if n < 0x61 then 0x90 else 0xd8) else (if n < 0x63 then 0xab else 0x00))
              else (if n < 0x66 then (if n < 0x65 then 0x8c else 0xbc) else (if n < 0x67 then 0xd3 else 0x0a))
            else
              if n < 0x6c then (if n < 0x6a then (if n < 0x69 then 0xf7 else 0xe4) else (if n < 0x6b then 0x58 else 0x05))
              else (if n < 0x6e then (if n < 0x6d then 0xb8 else 0xb3) else (if n < 0x6f then 0x45 else 0x06))
          else
            if n < 0x78 then
              if n < 0x74 then (if n < 0x72 then (if n < 0x71 then 0xd0 else 0x2c) else (if n < 0x73 then 0x1e else 0x8f))
              else (if n < 0x76 then (if n < 0x75 then 0xca else 0x3f) else (if n < 0x77 then 0x0f else 0x02))
            else
              if n < 0x7c then (if n < 0x7a then (if n < 0x79 then 0xc1 else 0xaf) else (if n < 0x7b then 0xbd else 0x03))
              else (if n < 0x7e then (if n < 0x7d then 0x01 else 0x13) else (if n < 0x7f then 0x8a else 0x6b))
    else
      if n < 0xc0 then
        if n < 0xa0 then
          if n < 0x90 then
            if n < 0x88 then
              if n < 0x84 then (if n < 0x82 then (if n < 0x81 then 0x3a else 0x91) else (if n < 0x83 then 0x11 else 0x41))
              else (if n < 0x86 then (if n < 0x85 then 0x4f else 0x67) else (if n < 0x87 then 0xdc else 0xea))
            else
              if n < 0x8c then (if n < 0x8a then (if n < 0x89 then 0x97 else 0xf2) else (if n < 0x8b then 0xcf else 0xce))
              else (if n < 0x8e then (if n < 0x8d then 0xf0 else 0xb4) else (if n < 0x8f then 0xe6 else 0x73))
          else
            if n < 0x98 then
              if n < 0x94 then (if n < 0x92 then (if n < 0x91 then 0x96 else 0xac) else (if n < 0x93 then 0x74 else 0x22))
              else (if n < 0x96 then (if n < 0x95 then 0xe7 else 0xad) else (if n < 0x97 then 0x35 else 0x85))
            else
              if n < 0x9c then (if n < 0x9a then (if n < 0x99 then 0xe2 else 0xf9) else (if n < 0x9b then 0x37 else 0xe8))
              else (if n < 0x9e then (if n < 0x9d then 0x1c else 0x75) else (if n < 0x9f then 0xdf else 0x6e))
        else
          if n < 0xb0 then
            if n < 0xa8 then
              if n < 0xa4 then (if n < 0xa2 then (if n < 0xa1 then 0x47 else 0xf1) else (if n < 0xa3 then 0x1a else 0x71))
              else (if n < 0xa6 then (if n < 0xa5 then 0x1d else 0x29) else (if n < 0xa7 then 0xc5 else 0x89))
            else
              if n < 0xac then (if n < 0xaa then (if n < 0xa9 then 0x6f else 0xb7) else (if n < 0xab then 0x62 else 0x0e))
              else (if n < 0xae then (if n < 0xad then 0xaa else 0x18) else (if n < 0xaf then 0xbe else 0x1b))
          else
            if n < 0xb8 then
              if n < 0xb4 then (if n < 0xb2 then (if n < 0xb1 then 0xfc else 0x56) else (if n < 0xb3 then 0x3e else 0x4b))
              else (if n < 0xb6 then (if n < 0xb5 then 0xc6 else 0xd2) else (if n < 0xb7 then 0x79 else 0x20))
            else
              if n < 0xbc then (if n < 0xba then (if n < 0xb9 then 0x9a else 0xdb) else (if n < 0xbb then 0xc0 else 0xfe))
              else (if n < 0xbe then (if n < 0xbd then 0x78 else 0xcd) else (if n < 0xbf then 0x5a else 0xf4))
      else
        if n < 0xe0 then
          if n < 0xd0 then
            if n < 0xc8 then
              if n < 0xc4 then (if n < 0xc2 then (if n < 0xc1 then 0x1f else 0xdd) else (if n < 0xc3 then 0xa8 else 0x33))
              else (if n < 0xc6 then (if n < 0xc5 then 0x88 else 0x07) else (if n < 0xc7 then 0xc7 else 0x31))
            else
              if n < 0xcc then (if n < 0xca then (if n < 0xc9 then 0xb1 else 0x12) else (if n < 0xcb then 0x10 else 0x59))
              else (if n < 0xce then (if n < 0xcd then 0x27 else 0x80) else (if n < 0xcf then 0xec else 0x5f))
          else
            if n < 0xd8 then
              if n < 0xd4 then (if n < 0xd2 then (if n < 0xd1 then 0x60 else 0x51) else (if n < 0xd3 then 0x7f else 0xa9))
              else (if n < 0xd6 then (if n < 0xd5 then 0x19 else 0xb5) else (if n < 0xd7 then 0x4a else 0x0d))
            else
              if n < 0xdc then (if n < 0xda then (if n < 0xd9 then 0x2d else 0xe5) else (if n < 0xdb then 0x7a else 0x9f))
              else (if n < 0xde then (if n < 0xdd then 0x93 else 0xc9) else (if n < 0xdf then 0x9c else 0xef))
        else
          if n < 0xf0 then
            if n < 0xe8 then
              if n < 0xe4 then (if n < 0xe2 then (if n < 0xe1 then 0xa0 else 0xe0) else (if n < 0xe3 then 0x3b else 0x4d))
              else (if n < 0xe6 then (if n < 0xe5 then 0xae else 0x2a) else (if n < 0xe7 then 0xf5 else 0xb0))
            else
              if n < 0xec then (if n < 0xea then (if n < 0xe9 then 0xc8 else 0xeb) else (if n < 0xeb then 0xbb else 0x3c))
              else (if n < 0xee then (if n < 0xed then 0x83 else 0x53) else (if n < 0xef then 0x99 else 0x61))
          else
            if n < 0xf8 then
              if n < 0xf4 then (if n < 0xf2 then (if n < 0xf1 then 0x17 else 0x2b) else (if n < 0xf3 then 0x04 else 0x7e))
              else (if n < 0xf6 then (if n < 0xf5 then 0xba else 0x77) else (if n < 0xf7 then 0xd6 else 0x26))
            else
              if n < 0xfc then (if n < 0xfa then (if n < 0xf9 then 0xe1 else 0x69) else (if n < 0xfb then 0x14 else 0x63))
              else (if n < 0xfe then (if n < 0xfd then 0x55 else 0x21) else (if n < 0xff then 0x0c else 0x7d))
  }

  /** The two tables are inverse permutations of the bytes. */
  lemma InvSubByteSubByte(x: Byte)
    ensures InvSubByte(SubByte(x)) == x
  {
  }

  lemma SubByteInvSubByte(x: Byte)
    ensures SubByte(InvSubByte(x)) == x
  {
  }

  // ---------------------------------------------------------------------------
  // The State transformations (sections 5.1.1 to 5.1.4 and 5.3.1 to 5.3.3).

  function SubBytes(s: Block): Block
  {
    seq(16, i requires 0 <= i < 16 => SubByte(s[i]))
  }

  function InvSubBytes(s: Block): Block
  {
    seq(16, i requires 0 <= i < 16 => InvSubByte(s[i]))
  }

  /** The byte of the input that ShiftRows moves to position i: byte r + 4c of
      a Block is row r, column c, and row r is rotated left by r columns, so
      s'[r, c] = s[r, (c + r) mod 4]. */
  function ShiftRowsIndex(i: int): (j: int)
    requires 0 <= i < 16
    ensures 0 <= j < 16
  {
    [0, 5, 10, 15, 4, 9, 14, 3, 8, 13, 2, 7, 12, 1, 6, 11][i]
  }

  /** The byte of the input that InvShiftRows moves to position i:
      s'[r, c] = s[r, (c - r) mod 4]. */
  function InvShiftRowsIndex(i: int): (j: int)
    requires 0 <= i < 16
    ensures 0 <= j < 16
  {
    [0, 13, 10, 7, 4, 1, 14, 11, 8, 5, 2, 15, 12, 9, 6, 3][i]
  }

  lemma InvShiftRowsIndexShiftRowsIndex(i: int)
    requires 0 <= i < 16
    ensures InvShiftRowsIndex(ShiftRowsIndex(i)) == i
  {
    assert i == 0 || i == 1 || i == 2 || i == 3 || i == 4 || i == 5 || i == 6 || i == 7 || i == 8
      || i == 9 || i == 10 || i == 11 || i == 12 || i == 13 || i == 14 || i == 15;
  }

  lemma ShiftRowsIndexInvShiftRowsIndex(i: int)
    requires 0 <= i < 16
    ensures ShiftRowsIndex(InvShiftRowsIndex(i)) == i
  {
    assert i == 0 || i == 1 || i == 2 || i == 3 || i == 4 || i == 5 || i == 6 || i == 7 || i == 8
      || i == 9 || i == 10 || i == 11 || i == 12 || i == 13 || i == 14 || i == 15;
  }

  /** Row r of the State is rotated left by r columns (section 5.1.2). */
  function ShiftRows(s: Block): Block
  {
    seq(16, i requires 0 <= i < 16 => s[ShiftRowsIndex(i)])
  }

  /** Row r of the State is rotated right by r columns (section 5.3.1). */
  function InvShiftRows(s: Block): Block
  {
    seq(16, i requires 0 <= i < 16 => s[InvShiftRowsIndex(i)])
  }

  /** Column c of the State. */
  function Column(s: Block, c: int): Word
    requires 0 <= c < 4
  {
    s[4 * c .. 4 * c + 4]
  }

  /** The State with f applied to each of its columns. */
  function ColumnWise(s: Block, f: Word -> Word): Block
  {
    seq(16, i requires 0 <= i < 16 => f(Column(s, i / 4))[i % 4])
  }

  /** MixColumns works column by column (section 5.1.3). */
  function MixColumns(s: Block): Block
  {
    ColumnWise(s, MixColumn)
  }

  /** InvMixColumns works column by column (section 5.3.3). */
  function InvMixColumns(s: Block): Block
  {
    ColumnWise(s, InvMixColumn)
  }

  /** The round key is added to the State byte by byte (section 5.1.4). */
  function AddRoundKey(s: Block, k: Block): Block
  {
    seq(16, i requires 0 <= i < 16 => Add(s[i], k[i]))
  }

  lemma InvSubBytesSubBytes(s: Block)
    ensures InvSubBytes(SubBytes(s)) == s
  {
    forall i | 0 <= i < 16
      ensures InvSubBytes(SubBytes(s))[i] == s[i]
    {
      InvSubByteSubByte(s[i]);
    }
  }

  lemma SubBytesInvSubBytes(s: Block)
    ensures SubBytes(InvSubBytes(s)) == s
  {
    forall i | 0 <= i < 16
      ensures SubBytes(InvSubBytes(s))[i] == s[i]
    {
      SubByteInvSubByte(s[i]);
    }
  }

  lemma InvShiftRowsShiftRows(s: Block)
    ensures InvShiftRows(ShiftRows(s)) == s
  {
    forall i | 0 <= i < 16
      ensures InvShiftRows(ShiftRows(s))[i] == s[i]
    {
      InvShiftRowsIndexShiftRowsIndex(i);
    }
  }

  lemma ShiftRowsInvShiftRows(s: Block)
    ensures ShiftRows(InvShiftRows(s)) == s
  {
    forall i | 0 <= i < 16
      ensures ShiftRows(InvShiftRows(s))[i] == s[i]
    {
      ShiftRowsIndexInvShiftRowsIndex(i);
    }
  }

  /** SubBytes works byte by byte and ShiftRows only moves bytes, so the two
      commute; this is why the order in which a round applies them does not matter. */
  lemma ShiftRowsSubBytes(s: Block)
    ensures ShiftRows(SubBytes(s)) == SubBytes(ShiftRows(s))
  {
  }

  lemma InvShiftRowsInvSubBytes(s: Block)
    ensures InvShiftRows(InvSubBytes(s)) == InvSubBytes(InvShiftRows(s))
  {
  }

  /** Column c of a column-wise map is f of column c. */
  lemma ColumnColumnWise(s: Block, f: Word -> Word, c: int)
    requires 0 <= c < 4
    ensures Column(ColumnWise(s, f), c) == f(Column(s, c))
  {
    var m, col := ColumnWise(s, f), f(Column(s, c));
    forall j | 0 <= j < 4
      ensures Column(m, c)[j] == col[j]
    {
      var i := 4 * c + j;
      assert i / 4 == c && i % 4 == j;
      assert m[i] == col[j];
    }
  }

  lemma ColumnMixColumns(s: Block, c: int)
    requires 0 <= c < 4
    ensures Column(MixColumns(s), c) == MixColumn(Column(s, c))
  {
    ColumnColumnWise(s, MixColumn, c);
  }

  lemma ColumnInvMixColumns(s: Block, c: int)
    requires 0 <= c < 4
    ensures Column(InvMixColumns(s), c) == InvMixColumn(Column(s, c))
  {
    ColumnColumnWise(s, InvMixColumn, c);
  }

  lemma InvMixColumnsMixColumns(s: Block)
    ensures InvMixColumns(MixColumns(s)) == s
  {
    forall c | 0 <= c < 4
      ensures Column(InvMixColumns(MixColumns(s)), c) == Column(s, c)
    {
      ColumnInvMixColumns(MixColumns(s), c);
      ColumnMixColumns(s, c);
      InvMixColumnMixColumn(Column(s, c));
    }
    ColumnsDetermine(InvMixColumns(MixColumns(s)), s);
  }

  lemma MixColumnsInvMixColumns(s: Block)
    ensures MixColumns(InvMixColumns(s)) == s
  {
    forall c | 0 <= c < 4
      ensures Column(MixColumns(InvMixColumns(s)), c) == Column(s, c)
    {
      ColumnMixColumns(InvMixColumns(s), c);
      ColumnInvMixColumns(s, c);
      MixColumnInvMixColumn(Column(s, c));
    }
    ColumnsDetermine(MixColumns(InvMixColumns(s)), s);
  }

  lemma AddRoundKeyTwice(s: Block, k: Block)
    ensures AddRoundKey(AddRoundKey(s, k), k) == s
  {
    forall i | 0 <= i < 16
      ensures AddRoundKey(AddRoundKey(s, k), k)[i] == s[i]
    {
      AddCancel(s[i], k[i]);
    }
  }

  lemma ColumnAddRoundKey(s: Block, k: Block, c: int)
    requires 0 <= c < 4
    ensures Column(AddRoundKey(s, k), c) == AddWord(Column(s, c), Column(k, c))
  {
  }

  /** InvMixColumns is linear, so it can be moved past AddRoundKey by applying
      it to the round key too (section 5.3.5). */
  lemma InvMixColumnsAddRoundKey(s: Block, k: Block)
    ensures InvMixColumns(AddRoundKey(s, k)) == AddRoundKey(InvMixColumns(s), InvMixColumns(k))
  {
    forall c | 0 <= c < 4
      ensures Column(InvMixColumns(AddRoundKey(s, k)), c)
           == Column(AddRoundKey(InvMixColumns(s), InvMixColumns(k)), c)
    {
      ColumnInvMixColumns(AddRoundKey(s, k), c);
      ColumnInvMixColumns(s, c);
      ColumnInvMixColumns(k, c);
      ColumnAddRoundKey(s, k, c);
      InvMixColumnAdd(Column(s, c), Column(k, c));
      ColumnAddRoundKey(InvMixColumns(s), InvMixColumns(k), c);
    }
    ColumnsDetermine(InvMixColumns(AddRoundKey(s, k)), AddRoundKey(InvMixColumns(s), InvMixColumns(k)));
  }

  // ---------------------------------------------------------------------------
  // The cipher (section 5.1) and the inverse cipher (section 5.3).

  function Round(s: Block, k: Block): Block
  {
    AddRoundKey(MixColumns(ShiftRows(SubBytes(s))), k)
  }

  /** The last round leaves out MixColumns. */
  function FinalRound(s: Block, k: Block): Block
  {
    AddRoundKey(ShiftRows(SubBytes(s)), k)
  }

  /** Rounds 1 to n of the cipher, round r using the round key w[r]. */
  function CipherRounds(s: Block, w: seq<Block>, n: nat): Block
    requires n < |w|
  {
    if n == 0 then s else Round(CipherRounds(s, w, n - 1), w[n])
  }

  /** Cipher(in, w) of Figure 5, for the Nr + 1 round keys w. */
  function Cipher(input: Block, w: seq<Block>): Block
    requires |w| == Nr + 1
  {
    FinalRound(CipherRounds(AddRoundKey(input, w[0]), w, Nr - 1), w[Nr])
  }

  function InvRound(s: Block, k: Block): Block
  {
    InvMixColumns(AddRoundKey(InvSubBytes(InvShiftRows(s)), k))
  }

  function InvFinalRound(s: Block, k: Block): Block
  {
    AddRoundKey(InvSubBytes(InvShiftRows(s)), k)
  }

  /** Rounds n down to 1 of the inverse cipher, round r using the round key w[r]. */
  function InvCipherRounds(s: Block, w: seq<Block>, n: nat): Block
    requires n < |w|
    decreases n
  {
    if n == 0 then s else InvCipherRounds(InvRound(s, w[n]), w, n - 1)
  }

  /** InvCipher(in, w) of Figure 12. */
  function InvCipher(input: Block, w: seq<Block>): Block
    requires |w| == Nr + 1
  {
    InvFinalRound(InvCipherRounds(AddRoundKey(input, w[Nr]), w, Nr - 1), w[0])
  }

  /** A round of the inverse cipher undoes the matching round of the cipher, once
      the ShiftRows and SubBytes of the following round have been undone too. */
  lemma InvRoundRound(s: Block, k: Block)
    ensures InvRound(ShiftRows(SubBytes(Round(s, k))), k) == ShiftRows(SubBytes(s))
  {
    var t := Round(s, k);
    calc {
      InvRound(ShiftRows(SubBytes(t)), k);
      { InvShiftRowsShiftRows(SubBytes(t)); }
      InvMixColumns(AddRoundKey(InvSubBytes(SubBytes(t)), k));
      { InvSubBytesSubBytes(t); }
      InvMixColumns(AddRoundKey(t, k));
      { AddRoundKeyTwice(MixColumns(ShiftRows(SubBytes(s))), k); }
      InvMixColumns(MixColumns(ShiftRows(SubBytes(s))));
      { InvMixColumnsMixColumns(ShiftRows(SubBytes(s))); }
      ShiftRows(SubBytes(s));
    }
  }

  lemma {:induction false} InvCipherRoundsCipherRounds(s: Block, w: seq<Block>, n: nat)
    requires n < |w|
    ensures InvCipherRounds(ShiftRows(SubBytes(CipherRounds(s, w, n))), w, n) == ShiftRows(SubBytes(s))
  {
    if n > 0 {
      var t := CipherRounds(s, w, n - 1);
      InvRoundRound(t, w[n]);
      InvCipherRoundsCipherRounds(s, w, n - 1);
    }
  }

  /** Decryption inverts encryption (section 5.3). */
  lemma InvCipherCipher(input: Block, w: seq<Block>)
    requires |w| == Nr + 1
    ensures InvCipher(Cipher(input, w), w) == input
  {
    var a := AddRoundKey(input, w[0]);
    var t := CipherRounds(a, w, Nr - 1);
    AddRoundKeyTwice(ShiftRows(SubBytes(t)), w[Nr]);
    InvCipherRoundsCipherRounds(a, w, Nr - 1);
    InvShiftRowsShiftRows(SubBytes(a));
    InvSubBytesSubBytes(a);
    AddRoundKeyTwice(input, w[0]);
  }

  lemma RoundInvRound(s: Block, k: Block)
    ensures Round(InvSubBytes(InvShiftRows(InvRound(s, k))), k) == InvSubBytes(InvShiftRows(s))
  {
    var t := InvRound(s, k);
    var u := AddRoundKey(InvSubBytes(InvShiftRows(s)), k);
    calc {
      Round(InvSubBytes(InvShiftRows(t)), k);
      { SubBytesInvSubBytes(InvShiftRows(t)); }
      AddRoundKey(MixColumns(ShiftRows(InvShiftRows(t))), k);
      { ShiftRowsInvShiftRows(t); }
      AddRoundKey(MixColumns(InvMixColumns(u)), k);
      { MixColumnsInvMixColumns(u); }
      AddRoundKey(u, k);
      { AddRoundKeyTwice(InvSubBytes(InvShiftRows(s)), k); }
      InvSubBytes(InvShiftRows(s));
    }
  }

  /** The induction step of CipherRoundsInvCipherRounds, with the induction
      hypothesis for the remaining rounds as its precondition. */
  lemma CipherRoundsInvCipherRoundsStep(s: Block, t: Block, w: seq<Block>, n: nat)
    requires 0 < n < |w| && t == InvRound(s, w[n])
    requires CipherRounds(InvSubBytes(InvShiftRows(InvCipherRounds(t, w, n - 1))), w, n - 1) == InvSubBytes(InvShiftRows(t))
    ensures CipherRounds(InvSubBytes(InvShiftRows(InvCipherRounds(s, w, n))), w, n) == InvSubBytes(InvShiftRows(s))
  {
    var x := InvSubBytes(InvShiftRows(InvCipherRounds(t, w, n - 1)));
    var y := CipherRounds(x, w, n - 1);
    assert y == InvSubBytes(InvShiftRows(t));
    var z := CipherRounds(x, w, n);
    assert z == Round(y, w[n]);
    RoundInvRound(s, w[n]);
    assert z == InvSubBytes(InvShiftRows(s));
    var u := InvCipherRounds(s, w, n);
    assert u == InvCipherRounds(t, w, n - 1);
  }

  lemma CipherRoundsInvCipherRounds(s: Block, w: seq<Block>, n: nat)
    requires n < |w|
    ensures CipherRounds(InvSubBytes(InvShiftRows(InvCipherRounds(s, w, n))), w, n) == InvSubBytes(InvShiftRows(s))
    decreases n
  {
    if n > 0 {
      var t := InvRound(s, w[n]);
      CipherRoundsInvCipherRounds(t, w, n - 1);
      CipherRoundsInvCipherRoundsStep(s, t, w, n);
    }
  }

  /** Encryption inverts decryption: the cipher is a permutation of blocks. */
  lemma CipherInvCipher(input: Block, w: seq<Block>)
    requires |w| == Nr + 1
    ensures Cipher(InvCipher(input, w), w) == input
  {
    var a := AddRoundKey(input, w[Nr]);
    var t := InvCipherRounds(a, w, Nr - 1);
    AddRoundKeyTwice(InvSubBytes(InvShiftRows(t)), w[0]);
    CipherRoundsInvCipherRounds(a, w, Nr - 1);
    SubBytesInvSubBytes(InvShiftRows(a));
    ShiftRowsInvShiftRows(a);
    AddRoundKeyTwice(input, w[Nr]);
  }


  // ---------------------------------------------------------------------------
  // The equivalent inverse cipher (section 5.3.5).

  function EqInvRound(s: Block, k: Block): Block
  {
    AddRoundKey(InvMixColumns(InvShiftRows(InvSubBytes(s))), k)
  }

  function EqInvFinalRound(s: Block, k: Block): Block
  {
    AddRoundKey(InvShiftRows(InvSubBytes(s)), k)
  }

  /** Rounds n down to 1 of the equivalent inverse cipher, round r using dw[r]. */
  function EqInvCipherRounds(s: Block, dw: seq<Block>, n: nat): Block
    requires n < |dw|
    decreases n
  {
    if n == 0 then s else EqInvCipherRounds(EqInvRound(s, dw[n]), dw, n - 1)
  }

  /** EqInvCipher(in, dw) of Figure 15. */
  function EqInvCipher(input: Block, dw: seq<Block>): Block
    requires |dw| == Nr + 1
  {
    EqInvFinalRound(EqInvCipherRounds(AddRoundKey(input, dw[Nr]), dw, Nr - 1), dw[0])
  }

  /** The decryption key schedule of Figure 15: the middle round keys pass
      through InvMixColumns, the first and the last are kept. */
  function EqInvRoundKeys(w: seq<Block>): (dw: seq<Block>)
    requires |w| == Nr + 1
    ensures |dw| == Nr + 1
  {
    seq(Nr + 1, r requires 0 <= r <= Nr => if r == 0 || r == Nr then w[r] else InvMixColumns(w[r]))
  }

  /** With InvMixColumns applied to its round key, a round of the equivalent
      inverse cipher is a round of the inverse cipher: InvSubBytes and
      InvShiftRows commute, and InvMixColumns distributes over AddRoundKey. */
  lemma EqInvRoundInvRound(s: Block, k: Block)
    ensures EqInvRound(s, InvMixColumns(k)) == InvRound(s, k)
  {
    calc {
      InvRound(s, k);
      { InvMixColumnsAddRoundKey(InvSubBytes(InvShiftRows(s)), k); }
      AddRoundKey(InvMixColumns(InvSubBytes(InvShiftRows(s))), InvMixColumns(k));
      { InvShiftRowsInvSubBytes(s); }
      EqInvRound(s, InvMixColumns(k));
    }
  }

  lemma {:induction false} EqInvCipherRoundsInvCipherRounds(s: Block, w: seq<Block>, n: nat)
    requires |w| == Nr + 1 && n < Nr
    ensures EqInvCipherRounds(s, EqInvRoundKeys(w), n) == InvCipherRounds(s, w, n)
    decreases n
  {
    if n > 0 {
      EqInvRoundInvRound(s, w[n]);
      EqInvCipherRoundsInvCipherRounds(InvRound(s, w[n]), w, n - 1);
    }
  }

  /** The equivalent inverse cipher with the decryption key schedule computes
      the inverse cipher. */
  lemma EqInvCipherInvCipher(input: Block, w: seq<Block>)
    requires |w| == Nr + 1
    ensures EqInvCipher(input, EqInvRoundKeys(w)) == InvCipher(input, w)
  {
    var a := AddRoundKey(input, w[Nr]);
    EqInvCipherRoundsInvCipherRounds(a, w, Nr - 1);
    InvShiftRowsInvSubBytes(InvCipherRounds(a, w, Nr - 1));
  }

  // ---------------------------------------------------------------------------
  // Key expansion (section 5.2), for Nk = 4.

  /** SubWord: the S-box applied to each byte of a word. */
  function SubWord(w: Word): Word
  {
    [SubByte(w[0]), SubByte(w[1]), SubByte(w[2]), SubByte(w[3])]
  }

  /** RotWord: [a0, a1, a2, a3] becomes [a1, a2, a3, a0]. */
  function RotWord(w: Word): Word
  {
    [w[1], w[2], w[3], w[0]]
  }

  /** The first byte of Rcon[i]: x^(i - 1) in GF(2^8). */
  function RC(i: nat): Byte
    requires 1 <= i
  {
    if i == 1 then 0x01 else XTime(RC(i - 1))
  }

  /** The round constant word Rcon[i] = [x^(i - 1), 0, 0, 0]. */
  function Rcon(i: nat): Word
    requires 1 <= i
  {
    [RC(i), 0, 0, 0]
  }

  /** Word w[Nk * r + j] of the expanded key, for column j < Nk of round key
      r. Figure 11 with i = Nk * r + j: the first Nk words are the key; w[i]
      is w[i - Nk], which is column j of round key r - 1, plus temp, where
      temp is w[i - 1] (column j - 1 of round key r) or, when i is a multiple
      of Nk (j = 0), SubWord(RotWord(w[i - 1])) + Rcon[i / Nk] with w[i - 1]
      the last column of round key r - 1 and i / Nk = r. */
  function KeyWord(key: Block, r: nat, j: nat): Word
    requires j < Nk
    decreases r, j
  {
    if r == 0 then
      key[4 * j .. 4 * j + 4]
    else if j == 0 then
      AddWord(KeyWord(key, r - 1, 0), AddWord(SubWord(RotWord(KeyWord(key, r - 1, Nk - 1))), Rcon(r)))
    else
      AddWord(KeyWord(key, r - 1, j), KeyWord(key, r, j - 1))
  }

  /** Round key r: the words w[4r] .. w[4r + 3]. */
  function RoundKey(key: Block, r: nat): Block
  {
    KeyWord(key, r, 0) + KeyWord(key, r, 1) + KeyWord(key, r, 2) + KeyWord(key, r, 3)
  }

  /** KeyExpansion(key, w): the Nr + 1 round keys. */
  function KeyExpansion(key: Block): (w: seq<Block>)
    ensures |w| == Nr + 1
  {
    seq(Nr + 1, r requires 0 <= r <= Nr => RoundKey(key, r))
  }

  /** One step of the key expansion for Nk = 4, from round key r - 1 to round
      key r, with rc the first byte of Rcon[r]: the last word, rotated,
      substituted and with rc added, is added to the first word, and each
      following word adds the new word before it. */
  function NextRoundKey(k: Block, rc: Byte): Block
  {
    var t := AddWord(SubWord(RotWord(Column(k, 3))), [rc, 0, 0, 0]);
    var w0 := AddWord(Column(k, 0), t);
    var w1 := AddWord(Column(k, 1), w0);
    var w2 := AddWord(Column(k, 2), w1);
    var w3 := AddWord(Column(k, 3), w2);
    w0 + w1 + w2 + w3
  }

  /** The words of a block built from four words are those words. */
  lemma ColumnsConcat(a: Word, b: Word, c: Word, d: Word)
    ensures Column(a + b + c + d, 0) == a && Column(a + b + c + d, 1) == b
    ensures Column(a + b + c + d, 2) == c && Column(a + b + c + d, 3) == d
  {
    var k := a + b + c + d;
    assert k[0..4] == a;
    assert k[4..8] == b;
    assert k[8..12] == c;
    assert k[12..16] == d;
  }

  /** Round key 0 is the cipher key itself. */
  lemma RoundKeyZero(key: Block)
    ensures RoundKey(key, 0) == key
  {
    assert RoundKey(key, 0) == key[0..4] + key[4..8] + key[8..12] + key[12..16];
  }

  /** A State is determined by its four columns. */
  lemma ColumnsDetermine(x: Block, y: Block)
    requires Column(x, 0) == Column(y, 0) && Column(x, 1) == Column(y, 1)
    requires Column(x, 2) == Column(y, 2) && Column(x, 3) == Column(y, 3)
    ensures x == y
  {
    forall i | 0 <= i < 16
      ensures x[i] == y[i]
    {
      assert Column(x, i / 4)[i % 4] == Column(y, i / 4)[i % 4];
    }
  }

  /** NextRoundKey on a block made of four words gives the four words of
      Figure 11's recurrence. */
  lemma NextRoundKeyWords(a0: Word, a1: Word, a2: Word, a3: Word, rc: Byte, b0: Word, b1: Word, b2: Word, b3: Word)
    requires b0 == AddWord(a0, AddWord(SubWord(RotWord(a3)), [rc, 0, 0, 0]))
    requires b1 == AddWord(a1, b0) && b2 == AddWord(a2, b1) && b3 == AddWord(a3, b2)
    ensures NextRoundKey(a0 + a1 + a2 + a3, rc) == b0 + b1 + b2 + b3
  {
    ColumnsConcat(a0, a1, a2, a3);
  }

  /** Each round key follows from the one before by NextRoundKey. */
  lemma RoundKeyNext(key: Block, r: nat)
    requires 1 <= r
    ensures RoundKey(key, r) == NextRoundKey(RoundKey(key, r - 1), RC(r))
  {
    var a0, a1, a2, a3 := KeyWord(key, r - 1, 0), KeyWord(key, r - 1, 1), KeyWord(key, r - 1, 2), KeyWord(key, r - 1, 3);
    var b0, b1, b2, b3 := KeyWord(key, r, 0), KeyWord(key, r, 1), KeyWord(key, r, 2), KeyWord(key, r, 3);
    NextRoundKeyWords(a0, a1, a2, a3, RC(r), b0, b1, b2, b3);
  }
}
